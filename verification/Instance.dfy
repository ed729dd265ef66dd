/** A running agent (internal/agent/instance.go): metered ticks, the sliding replay window,
    payments out of its budget, and the receipts cut at each checkpoint. */
module Instances {
  import opened Bytes
  import K = Checkpoints
  import L = EventLogs
  import P = Payments
  import R = Receipts

  const DEFAULT_REPLAY_WINDOW: nat := 16
  const NANOS_PER_SECOND: int := 1_000_000_000
  /** The most one tick can cost: the largest int64 product over a second's nanoseconds. */
  const MAX_TICK_COST: int := 9_223_372_036

  /** Prices and elapsed times are non-negative int64 values. */
  type Amount = x: int | 0 <= x <= 0x7FFF_FFFF_FFFF_FFFF

  // ----- Metering -----

  function TickCost(nanos: Amount, price: Amount, budget: int): int {
    if price > 0 && nanos > MAX_INT64 / price then budget else nanos * price / NANOS_PER_SECOND
  }

  /** The guard caps the cost exactly when the int64 product would overflow. */
  lemma GuardIsExact(nanos: Amount, price: Amount)
    ensures (price > 0 && nanos > MAX_INT64 / price) <==> nanos * price > MAX_INT64
  {
    if price > 0 {
      var q, r := MAX_INT64 / price, MAX_INT64 % price;
      assert MAX_INT64 == q * price + r && 0 <= r < price;
      if nanos > q {
        Times(q + 1, nanos, price);
        assert (q + 1) * price == q * price + price;
      } else {
        Times(nanos, q, price);
      }
    }
  }

  lemma Times(a: int, b: int, p: int)
    requires a <= b && p >= 0
    ensures a * p <= b * p
  {
  }

  lemma CostBounds(nanos: Amount, price: Amount, budget: int)
    requires budget >= 0
    ensures 0 <= TickCost(nanos, price, budget)
    ensures TickCost(nanos, price, budget) <= budget || TickCost(nanos, price, budget) <= MAX_TICK_COST
  {
    GuardIsExact(nanos, price);
    Times(0, nanos, price);
  }

  /** The cost is the exact price of the time, to the nanosecond, less a fraction of one unit; a product
      beyond int64 takes all that is left. */
  lemma CostSays(nanos: Amount, price: Amount, budget: int)
    ensures
      var cost := TickCost(nanos, price, budget);
      if nanos * price > MAX_INT64 then cost == budget
      else cost * 1_000_000_000 <= nanos * price < (cost + 1) * 1_000_000_000
  {
    GuardIsExact(nanos, price);
    Times(0, nanos, price);
  }

  // ----- The replay window -----

  /** One successful tick, with what its tick log shows, if there is one. */
  datatype Snapshot = Snapshot(tick: uint64, preState: bytes, postHash: bytes, log: Option<seq<L.Observation>>) {
    function Score(): nat {
      if log.None? then 0 else |log.value|
    }
  }

  /** How many entries its tick recorded. */
  ghost function Entries(s: Snapshot): nat {
    match s.log
    case None => 0
    case Some(entries) => |entries|
  }

  /** The lowest score before the last element; the first of equals. */
  ghost predicate IsEvicted(w: seq<Snapshot>, e: nat) {
    && e < |w| - 1
    && (forall j :: 0 <= j < |w| - 1 ==> w[e].Score() <= w[j].Score())
    && (forall j :: 0 <= j < e ==> w[e].Score() < w[j].Score())
  }

  method FindEvicted(w: seq<Snapshot>) returns (e: nat)
    requires |w| >= 2
    ensures IsEvicted(w, e)
  {
    e := 0;
    var score := w[0].Score();
    for j := 1 to |w| - 1
      invariant e < j && score == w[e].Score()
      invariant forall k :: 0 <= k < j ==> w[e].Score() <= w[k].Score()
      invariant forall k :: 0 <= k < e ==> w[e].Score() < w[k].Score()
    {
      if w[j].Score() < score {
        score := w[j].Score();
        e := j;
      }
    }
  }

  function Evicted(w: seq<Snapshot>): (e: nat)
    requires |w| >= 2
    ensures IsEvicted(w, e)
  {
    if |w| == 2 then 0
    else
      var v := w[..|w| - 1];
      var e := Evicted(v);
      assert forall j :: 0 <= j < |v| ==> v[j] == w[j];
      if w[|w| - 2].Score() < w[e].Score() then |w| - 2 else e
  }

  lemma EvictedIsUnique(w: seq<Snapshot>, d: nat, e: nat)
    requires IsEvicted(w, d) && IsEvicted(w, e)
    ensures d == e
  {
    assert w[d].Score() <= w[e].Score() && w[e].Score() <= w[d].Score();
  }

  function Without(w: seq<Snapshot>, e: nat): (r: seq<Snapshot>)
    requires e < |w|
    ensures |r| == |w| - 1
  {
    w[..e] + w[e + 1..]
  }

  lemma WithoutAt(w: seq<Snapshot>, e: nat, k: nat)
    requires e < |w| && k < |w| - 1
    ensures Without(w, e)[k] == w[if k < e then k else k + 1]
  {
  }

  /** What is left is everything but the element taken out, in the same order. */
  lemma WithoutKeeps(w: seq<Snapshot>, e: nat, x: Snapshot)
    requires e < |w| && Ascending(w)
    ensures x in Without(w, e) <==> x in w && x != w[e]
  {
    var r := Without(w, e);
    if x in r {
      var k :| 0 <= k < |r| && r[k] == x;
      WithoutAt(w, e, k);
      assert w[if k < e then k else k + 1] == x;
    }
    if x in w && x != w[e] {
      var j :| 0 <= j < |w| && w[j] == x;
      WithoutAt(w, e, if j < e then j else j - 1);
    }
  }

  lemma WithoutStaysAscending(w: seq<Snapshot>, e: nat)
    requires e < |w| && Ascending(w)
    ensures Ascending(Without(w, e))
  {
    var r := Without(w, e);
    forall i, j | 0 <= i < j < |r|
      ensures r[i].tick < r[j].tick
    {
      WithoutAt(w, e, i);
      WithoutAt(w, e, j);
    }
  }

  function Windowed(w: seq<Snapshot>, s: Snapshot, max: nat): seq<Snapshot>
    requires max > 0
  {
    var v := w + [s];
    if |v| > max then Without(v, Evicted(v)) else v
  }

  /** A window that is not full grows by the newest snapshot; a full one also loses the first of those
      with the fewest entries, the newest excepted. */
  lemma WindowSays(w: seq<Snapshot>, s: Snapshot, max: nat) returns (e: nat)
    requires 0 < max && |w| <= max
    ensures |w| < max ==> Windowed(w, s, max) == w + [s]
    ensures
      |w| == max ==>
        && e < max && Windowed(w, s, max) == w[..e] + w[e + 1..] + [s]
        && (forall j :: 0 <= j < max ==> Entries(w[e]) <= Entries(w[j]))
        && (forall j :: 0 <= j < e ==> Entries(w[e]) < Entries(w[j]))
  {
    e := 0;
    if |w| == max {
      var v := w + [s];
      e := Evicted(v);
      assert forall j :: 0 <= j < max ==> v[j] == w[j];
      assert forall j :: 0 <= j < max ==> w[j].Score() == Entries(w[j]);
      WithoutExtended(w, s, e);
    }
  }

  /** More observations are worth more; of equals, the newer tick. */
  predicate Beats(x: Snapshot, y: Snapshot) {
    x.Score() > y.Score() || (x.Score() == y.Score() && x.tick > y.tick)
  }

  ghost predicate Ascending(w: seq<Snapshot>) {
    forall i, j :: 0 <= i < j < |w| ==> w[i].tick < w[j].tick
  }

  /** The k best of all snapshots (all of them when there are no more than k), in tick order. */
  ghost predicate IsTopK(best: seq<Snapshot>, all: seq<Snapshot>, k: nat) {
    && Ascending(best)
    && (forall x :: x in best ==> x in all)
    && |best| <= k && (|best| == k || best == all)
    && (forall x, y :: x in best && y in all && y !in best ==> Beats(x, y))
  }

  /** The window after some ticks: the newest snapshot behind the best of the earlier ones. */
  ghost predicate IsWindow(w: seq<Snapshot>, all: seq<Snapshot>, max: nat) {
    && Ascending(all) && (all == [] <==> w == [])
    && (all != [] ==>
          && max > 0
          && w[|w| - 1] == all[|all| - 1]
          && IsTopK(w[..|w| - 1], all[..|all| - 1], max - 1))
  }

  lemma {:induction false} ElementsCount(w: seq<Snapshot>)
    requires Ascending(w)
    ensures |Elements(w)| == |w|
  {
    if w != [] {
      var n := |w| - 1;
      ElementsCount(w[..n]);
      assert Elements(w) == Elements(w[..n]) + {w[n]};
    }
  }

  ghost function Elements(w: seq<Snapshot>): set<Snapshot> {
    set x | x in w
  }

  lemma {:induction false} SameElementsSameOrder(a: seq<Snapshot>, b: seq<Snapshot>)
    requires Ascending(a) && Ascending(b) && Elements(a) == Elements(b)
    ensures a == b
  {
    ElementsCount(a);
    ElementsCount(b);
    if a != [] {
      var n := |a| - 1;
      assert a[n] in Elements(b) && b[n] in Elements(a);
      assert a[n] == b[n];
      assert Elements(a[..n]) == Elements(a) - {a[n]};
      assert Elements(b[..n]) == Elements(b) - {b[n]};
      SameElementsSameOrder(a[..n], b[..n]);
    }
  }

  lemma TopKWithin(a: seq<Snapshot>, b: seq<Snapshot>, all: seq<Snapshot>, k: nat)
    requires IsTopK(a, all, k) && IsTopK(b, all, k)
    ensures Elements(a) <= Elements(b)
  {
    ElementsCount(a);
    ElementsCount(b);
    forall x | x in a
      ensures x in b
    {
      if x !in b && b != all {
        assert forall y :: y in b ==> y in a;
        SubsetSize(Elements(b) + {x}, Elements(a));
      }
    }
  }

  /** There is only one such selection, so whatever computes it offline computes the window. */
  lemma TopKIsUnique(a: seq<Snapshot>, b: seq<Snapshot>, all: seq<Snapshot>, k: nat)
    requires IsTopK(a, all, k) && IsTopK(b, all, k)
    ensures a == b
  {
    TopKWithin(a, b, all, k);
    TopKWithin(b, a, all, k);
    SameElementsSameOrder(a, b);
  }

  lemma {:induction false} SubsetSize<T>(a: set<T>, b: set<T>)
    requires a <= b
    ensures |a| <= |b|
  {
    assert b == a + (b - a);
  }

  /** One tick keeps the window the newest snapshot behind the offline top max-1 of the rest. */
  lemma TickKeepsWindow(w: seq<Snapshot>, all: seq<Snapshot>, s: Snapshot, max: nat)
    requires max > 0 && IsWindow(w, all, max)
    requires all != [] ==> all[|all| - 1].tick < s.tick
    ensures IsWindow(Windowed(w, s, max), all + [s], max)
  {
    hide IsTopK, Evicted, Without;
    if all == [] {
      FirstWindow(s, max);
      assert [] + [s] == [s];
    } else if |w| + 1 > max {
      EvictionKeepsWindow(w, all, s, max);
    } else {
      GrowthKeepsWindow(w, all, s, max);
    }
  }

  lemma FirstWindow(s: Snapshot, max: nat)
    requires max > 0
    ensures IsWindow([s], [s], max)
  {
    assert [s][..0] == [];
  }

  lemma GrowthKeepsWindow(w: seq<Snapshot>, all: seq<Snapshot>, s: Snapshot, max: nat)
    requires max > 0 && all != [] && IsWindow(w, all, max) && |w| + 1 <= max
    requires all[|all| - 1].tick < s.tick
    ensures IsWindow(w + [s], all + [s], max)
  {
    WindowIsOrdered(w, all, max, s);
    assert w == w[..|w| - 1] + [all[|all| - 1]] && all == all[..|all| - 1] + [all[|all| - 1]];
    assert w == all;
    assert (w + [s])[..|w|] == w && (all + [s])[..|all|] == all;
  }

  lemma EvictionKeepsWindow(w: seq<Snapshot>, all: seq<Snapshot>, s: Snapshot, max: nat)
    requires max > 0 && all != [] && IsWindow(w, all, max) && |w| + 1 > max
    requires all[|all| - 1].tick < s.tick
    ensures IsWindow(Without(w + [s], Evicted(w + [s])), all + [s], max)
  {
    hide IsTopK, Evicted, Ascending, Without, IsWindow;
    WindowIsOrdered(w, all, max, s);
    var kept, before, last := w[..|w| - 1], all[..|all| - 1], all[|all| - 1];
    var e := Evicted(w + [s]);
    WindowParts(w, all, max);
    TopKSize(kept, before, max - 1);
    LowestOfExtended(w, s, e);
    EvictionKeepsTopK(kept, before, last, w, all, e, max - 1);
    WithoutExtended(w, s, e);
    NewestBehindTopK(Without(w, e), all, s, max);
  }

  lemma WindowParts(w: seq<Snapshot>, all: seq<Snapshot>, max: nat)
    requires max > 0 && all != [] && IsWindow(w, all, max)
    ensures w != [] && Ascending(all) && IsTopK(w[..|w| - 1], all[..|all| - 1], max - 1)
    ensures w == w[..|w| - 1] + [all[|all| - 1]] && all == all[..|all| - 1] + [all[|all| - 1]]
  {
    hide IsTopK, Ascending;
  }

  lemma LowestOfExtended(w: seq<Snapshot>, s: Snapshot, e: nat)
    requires IsEvicted(w + [s], e)
    ensures e < |w|
    ensures forall j :: 0 <= j < |w| ==> w[e].Score() <= w[j].Score()
    ensures forall j :: 0 <= j < e ==> w[e].Score() < w[j].Score()
  {
    var v := w + [s];
    assert forall j :: 0 <= j < |w| ==> v[j] == w[j];
  }

  lemma WithoutExtended(w: seq<Snapshot>, s: Snapshot, e: nat)
    requires e < |w|
    ensures Without(w + [s], e) == Without(w, e) + [s]
  {
  }

  lemma NewestBehindTopK(kept: seq<Snapshot>, before: seq<Snapshot>, s: Snapshot, max: nat)
    requires max > 0 && IsTopK(kept, before, max - 1) && Ascending(before + [s])
    ensures IsWindow(kept + [s], before + [s], max)
  {
    hide IsTopK, Ascending;
    assert (kept + [s])[..|kept|] == kept && (before + [s])[..|before|] == before;
  }

  lemma TopKSize(best: seq<Snapshot>, all: seq<Snapshot>, k: nat)
    requires IsTopK(best, all, k)
    ensures |best| <= k
  {
  }

  lemma WindowIsOrdered(w: seq<Snapshot>, all: seq<Snapshot>, max: nat, s: Snapshot)
    requires max > 0 && all != [] && IsWindow(w, all, max) && all[|all| - 1].tick < s.tick
    ensures Ascending(w) && Ascending(all + [s]) && (forall x :: x in w ==> x in all)
  {
    var kept := w[..|w| - 1];
    forall i | 0 <= i < |kept|
      ensures w[i].tick < all[|all| - 1].tick
    {
      assert kept[i] in all[..|all| - 1];
    }
    forall x | x in w
      ensures x in all
    {
      if x in kept {
        assert x in all[..|all| - 1];
      } else {
        assert x == w[|w| - 1];
      }
    }
  }

  /** What stays beats the evicted snapshot, and so everything the evicted one beat. */
  lemma StayingBeats(kept: seq<Snapshot>, before: seq<Snapshot>, last: Snapshot,
                     w: seq<Snapshot>, e: nat, k: nat, i: nat, y: Snapshot)
    requires w == kept + [last] && Ascending(w) && IsTopK(kept, before, k)
    requires e < |w| && i < |w| && i != e && (y in before || y == last)
    requires forall j :: 0 <= j < |w| ==> w[e].Score() <= w[j].Score()
    requires forall j :: 0 <= j < e ==> w[e].Score() < w[j].Score()
    requires y == w[e] || y !in w
    ensures Beats(w[i], y)
  {
    assert last == w[|kept|] && last in w;
    if e < i {
      assert w[e].tick < w[i].tick;
    }
    assert Beats(w[i], w[e]);
    if y != w[e] {
      assert y in before && y !in kept;
      if i < |kept| {
        assert w[i] == kept[i] && kept[i] in kept;
      } else {
        assert w[e] == kept[e] && kept[e] in kept;
        assert Beats(w[e], y);
      }
    }
  }

  lemma EvictionKeepsTopK(kept: seq<Snapshot>, before: seq<Snapshot>, last: Snapshot,
                          w: seq<Snapshot>, all: seq<Snapshot>, e: nat, k: nat)
    requires w == kept + [last] && all == before + [last] && Ascending(w) && Ascending(all)
    requires IsTopK(kept, before, k) && |kept| == k
    requires e < |w|
    requires forall j :: 0 <= j < |w| ==> w[e].Score() <= w[j].Score()
    requires forall j :: 0 <= j < e ==> w[e].Score() < w[j].Score()
    ensures IsTopK(Without(w, e), all, k)
  {
    hide Without;
    var r := Without(w, e);
    WithoutStaysAscending(w, e);
    forall x, y | x in r && y in all && y !in r
      ensures Beats(x, y)
    {
      hide IsTopK, Beats, Ascending;
      WithoutKeeps(w, e, x);
      WithoutKeeps(w, e, y);
      var i :| 0 <= i < |w| && w[i] == x;
      StayingBeats(kept, before, last, w, e, k, i, y);
    }
    forall x | x in r
      ensures x in all
    {
      WithoutKeeps(w, e, x);
      var i :| 0 <= i < |w| && w[i] == x;
      if i < |kept| {
        assert kept[i] in before;
      }
    }
  }

  // ----- A tick -----

  /** What the host observes of one Tick call: where it stopped, what the agent paid while it
      ran, and for how long it ran. */
  datatype TickRun =
    | BudgetRejected
    | PreCaptureFailed
    | NoTickExport
    | Trapped(payments: seq<Payment>)
    | PostCaptureFailed(payments: seq<Payment>)
    | Completed(payments: seq<Payment>, preState: bytes, postHash: bytes, log: Option<seq<L.Observation>>, nanos: Amount, more: bool)

  datatype Payment = Payment(req: P.Request, timestamp: int64)

  /** Fixed for the life of the instance. */
  datatype Setup = Setup(price: Amount, policy: P.Policy, signer: P.Signer, windowMax: int,
                         agentID: bytes, nodeID: bytes, signReceipt: Option<bytes -> bytes>) {
    function Max(): (m: nat)
      ensures m > 0
    {
      if windowMax <= 0 then DEFAULT_REPLAY_WINDOW else windowMax
    }
  }

  datatype Value = Value(budget: int, tick: uint64, window: seq<Snapshot>,
                         receipts: seq<R.Receipt>, lastReceiptTick: uint64, epochCost: int)

  function Charged(budget: int, c: Setup, p: Payment): nat {
    P.Pay(budget, c.policy, c.signer, p.req, p.timestamp).charged
  }

  /** What a sequence of wallet_pay calls takes out of the budget. */
  function TotalCharged(budget: int, c: Setup, ps: seq<Payment>): nat
    decreases |ps|
  {
    if ps == [] then 0
    else
      var first := Charged(budget, c, ps[0]);
      first + TotalCharged(budget - first, c, ps[1..])
  }

  function PaymentsOf(run: TickRun): seq<Payment> {
    match run
    case Trapped(ps) => ps
    case PostCaptureFailed(ps) => ps
    case Completed(ps, _, _, _, _, _) => ps
    case _ => []
  }

  function Ticked(v: Value, c: Setup, run: TickRun): (Value, bool) {
    if v.budget <= 0 then (v, false)
    else if run.BudgetRejected? || run.PreCaptureFailed? then (v, false)
    else
      var paid := TotalCharged(v.budget, c, PaymentsOf(run));
      var u := v.(tick := Inc64(v.tick), budget := v.budget - paid);
      if !run.Completed? then (u, false)
      else
        var cost := TickCost(run.nanos, c.price, u.budget);
        (u.(window := Windowed(v.window, Snapshot(u.tick, run.preState, run.postHash, run.log), c.Max()),
            budget := u.budget - cost, epochCost := u.epochCost + cost), true)
  }

  lemma {:induction false} PaymentsStayWithinBudget(budget: int, c: Setup, ps: seq<Payment>)
    requires budget >= 0
    ensures TotalCharged(budget, c, ps) <= budget
    decreases |ps|
  {
    if ps != [] {
      PaymentsStayWithinBudget(budget - Charged(budget, c, ps[0]), c, ps[1..]);
    }
  }

  // ----- Receipts -----

  /** The receipt for everything since the last one; unsigned nodes issue none. */
  function Receipted(v: Value, c: Setup, timestamp: int64): Value {
    if c.signReceipt.None? then v
    else
      var r := R.Receipt(c.agentID, c.nodeID, Inc64(v.lastReceiptTick), v.tick,
                         Clamped(v.epochCost), Clamped(v.budget), timestamp, []);
      v.(receipts := v.receipts + [r.(signature := c.signReceipt.value(R.SignData(r)))],
         lastReceiptTick := v.tick, epochCost := 0)
  }

  /** The value an int64 field holds. */
  function Clamped(x: int): int64 { ToSigned(x % TWO_TO_THE_64) }

  /** The first receipt starts at tick 1, and each other one after the end of the one before. */
  ghost predicate Tiles(rs: seq<R.Receipt>) {
    && (rs != [] ==> rs[0].epochStart == 1)
    && (forall k :: 0 < k < |rs| ==> rs[k].epochStart == Inc64(rs[k - 1].epochEnd))
  }

  /** The receipt is for at least one tick. */
  predicate Covers(r: R.Receipt) { r.epochStart <= r.epochEnd }

  /** The tick counter is past the last receipt's end (or that end is the last uint64, after which
      the next start wraps to zero). */
  predicate Advanced(v: Value) { v.lastReceiptTick < v.tick || v.lastReceiptTick == TWO_TO_THE_64 - 1 }

  lemma TilesPrefix(rs: seq<R.Receipt>, n: nat)
    requires Tiles(rs) && 0 < n < |rs|
    ensures Tiles(rs[..n]) && rs[n].epochStart == Inc64(rs[n - 1].epochEnd)
  {
    hide Inc64;
    var init := rs[..n];
    assert forall j :: 0 <= j < n ==> init[j] == rs[j];
  }

  /** In a tiling whose receipts all are for some tick, every tick up to the end of the last one is
      paid for exactly once. */
  lemma {:induction false} TicksCoveredOnce(rs: seq<R.Receipt>, t: uint64) returns (k: nat)
    requires Tiles(rs) && rs != [] && 1 <= t <= rs[|rs| - 1].epochEnd
    requires forall j :: 0 <= j < |rs| ==> Covers(rs[j]) && rs[j].epochEnd < TWO_TO_THE_64 - 1
    ensures k < |rs| && rs[k].epochStart <= t <= rs[k].epochEnd
    ensures forall j :: 0 <= j < |rs| && j != k ==> !(rs[j].epochStart <= t <= rs[j].epochEnd)
  {
    var n := |rs| - 1;
    if n == 0 {
      k := 0;
    } else {
      hide Tiles;
      var init := rs[..n];
      TilesPrefix(rs, n);
      assert forall j :: 0 <= j < n ==> rs[j] == init[j];
      if t >= rs[n].epochStart {
        k := n;
        EndsAscend(init, n - 1);
      } else {
        k := TicksCoveredOnce(init, t);
      }
    }
  }

  lemma {:induction false} EndsAscend(rs: seq<R.Receipt>, k: nat)
    requires Tiles(rs) && k < |rs|
    requires forall j :: 0 <= j < |rs| ==> Covers(rs[j]) && rs[j].epochEnd < TWO_TO_THE_64 - 1
    ensures forall j :: 0 <= j < k ==> rs[j].epochEnd < rs[k].epochEnd
  {
    if k > 0 {
      EndsAscend(rs, k - 1);
    }
  }

  ghost predicate ReceiptsInv(v: Value) {
    && Tiles(v.receipts)
    && v.lastReceiptTick == if v.receipts == [] then 0 else v.receipts[|v.receipts| - 1].epochEnd
  }

  function Costs(rs: seq<R.Receipt>): int {
    if rs == [] then 0 else rs[0].cost + Costs(rs[1..])
  }

  /** What the receipt of a checkpoint says: whose it is, the ticks since the last one, what they cost and
      what is left, under a signature that its signer's key verifies; a new epoch is open behind it. */
  lemma ReceiptSays(v: Value, c: Setup, timestamp: int64, publicKey: bytes, verify: (bytes, bytes, bytes) -> bool)
    requires c.signReceipt.Some? && forall d :: verify(publicKey, d, c.signReceipt.value(d))
    ensures
      var u := Receipted(v, c, timestamp);
      var n := |v.receipts|;
      && |u.receipts| == n + 1 && u.receipts[..n] == v.receipts
      && u == v.(receipts := u.receipts, lastReceiptTick := v.tick, epochCost := 0)
      && var r := u.receipts[n];
      && r.agentID == c.agentID && r.nodeID == c.nodeID && r.timestamp == timestamp
      && r.epochStart == (v.lastReceiptTick + 1) % TWO_TO_THE_64 && r.epochEnd == v.tick
      && (-MAX_INT64 <= v.epochCost <= MAX_INT64 ==> r.cost == v.epochCost)
      && (-MAX_INT64 <= v.budget <= MAX_INT64 ==> r.budgetAfter == v.budget)
      && verify(publicKey, R.SignData(r), r.signature)
  {
    hide U64, I64, U32;
    var r := Receipted(v, c, timestamp).receipts[|v.receipts|];
    assert R.SignData(r) == R.SignData(r.(signature := []));
    ClampedSays(v.epochCost);
    ClampedSays(v.budget);
  }

  lemma ClampedSays(x: int)
    ensures -MAX_INT64 <= x <= MAX_INT64 ==> Clamped(x) == x
  {
  }

  /** A new process: the header's budget and tick, the stored receipts, nothing else. */
  function Reloaded(budget: int, tick: uint64, stored: Option<bytes>): Value {
    var rs := if stored.None? then None else R.ParsedReceipts(stored.value);
    var receipts := if rs.None? then [] else rs.value;
    Value(budget, tick, [], receipts, if receipts == [] then 0 else receipts[|receipts| - 1].epochEnd, 0)
  }

  // ----- Runs -----

  /** A tick; a checkpoint save, whose receipt file may fail to be written; or a restart
      from a checkpoint with the given header. */
  datatype Event =
    | Tick(run: TickRun)
    | Checkpoint(timestamp: int64, receiptsSaved: bool)
    | Restart(budget: int, tick: uint64)

  /** The instance, its receipt file, and for this process: what it started with, every
      completed tick, and the sums of its costs, payments and receipts. */
  datatype Process = Process(v: Value, file: Option<bytes>, startBudget: int,
                             completed: seq<Snapshot>, costs: int, paid: int, receipted: int)

  function Fresh(budget: int, tick: uint64, file: Option<bytes>): Process {
    Process(Reloaded(budget, tick, file), file, budget, [], 0, 0, 0)
  }

  function Step(p: Process, c: Setup, e: Event): Process {
    match e
    case Tick(run) =>
      var (v, ok) := Ticked(p.v, c, run);
      var paid := if v.tick == p.v.tick then 0 else TotalCharged(p.v.budget, c, PaymentsOf(run));
      var cost := if ok then TickCost(run.nanos, c.price, p.v.budget - paid) else 0;
      p.(v := v, paid := p.paid + paid, costs := p.costs + cost,
         completed := if ok then p.completed + [Snapshot(v.tick, run.preState, run.postHash, run.log)] else p.completed)
    case Checkpoint(timestamp, saved) =>
      var v := Receipted(p.v, c, timestamp);
      p.(v := v, receipted := p.receipted + (if c.signReceipt.Some? then Clamped(p.v.epochCost) else 0),
         file := if saved && v.receipts != [] then Some(R.ReceiptsBytes(v.receipts)) else p.file)
    case Restart(budget, tick) => Fresh(budget, tick, p.file)
  }

  /** A checkpoint with a negative budget cannot be loaded; the tick counter does not wrap;
      receipts fit their 32-bit lengths. */
  ghost predicate Allowed(p: Process, c: Setup, e: Event) {
    match e
    case Tick(run) => p.v.tick + 1 < TWO_TO_THE_64
    case Checkpoint(timestamp, _) => R.AllFit(Receipted(p.v, c, timestamp).receipts)
    case Restart(budget, _) => 0 <= budget <= MAX_INT64 - MAX_TICK_COST
  }

  ghost predicate AllowedRun(p: Process, c: Setup, es: seq<Event>)
    decreases |es|
  {
    es == [] || (Allowed(p, c, es[0]) && AllowedRun(Step(p, c, es[0]), c, es[1..]))
  }

  function Run(p: Process, c: Setup, es: seq<Event>): Process
    decreases |es|
  {
    if es == [] then p else Run(Step(p, c, es[0]), c, es[1..])
  }

  ghost predicate LedgerInv(p: Process) {
    && p.startBudget == p.v.budget + p.costs + p.paid
    && p.receipted + p.v.epochCost == p.costs
    && -MAX_TICK_COST <= p.v.budget
    && 0 <= p.v.epochCost && 0 <= p.receipted && 0 <= p.paid
    && 0 <= p.startBudget <= MAX_INT64 - MAX_TICK_COST
  }

  ghost predicate FileInv(p: Process) {
    p.file.Some? ==> R.ParsedReceipts(p.file.value).Some? && Tiles(R.ParsedReceipts(p.file.value).value)
  }

  ghost predicate WindowInv(p: Process, c: Setup) {
    && IsWindow(p.v.window, p.completed, c.Max())
    && (p.completed != [] ==> p.completed[|p.completed| - 1].tick <= p.v.tick)
  }

  ghost predicate Inv(p: Process, c: Setup) {
    LedgerInv(p) && ReceiptsInv(p.v) && FileInv(p) && WindowInv(p, c)
  }

  lemma TickKeepsLedger(p: Process, c: Setup, run: TickRun)
    requires LedgerInv(p) && Allowed(p, c, Tick(run))
    ensures LedgerInv(Step(p, c, Tick(run)))
  {
    hide Windowed, P.Pay;
    if p.v.budget > 0 {
      PaymentsStayWithinBudget(p.v.budget, c, PaymentsOf(run));
      if run.Completed? {
        CostBounds(run.nanos, c.price, p.v.budget - TotalCharged(p.v.budget, c, run.payments));
      }
    }
  }

  lemma TickKeepsTheWindow(p: Process, c: Setup, run: TickRun)
    requires WindowInv(p, c) && Allowed(p, c, Tick(run))
    ensures WindowInv(Step(p, c, Tick(run)), c)
  {
    hide Windowed, IsWindow, TickCost, TotalCharged;
    var (v, ok) := Ticked(p.v, c, run);
    if ok {
      var s := Snapshot(v.tick, run.preState, run.postHash, run.log);
      TickKeepsWindow(p.v.window, p.completed, s, c.Max());
    }
  }

  lemma CheckpointKeeps(p: Process, c: Setup, timestamp: int64, saved: bool)
    requires Inv(p, c) && Allowed(p, c, Checkpoint(timestamp, saved))
    ensures Inv(Step(p, c, Checkpoint(timestamp, saved)), c)
  {
    hide R.ReceiptsBytes, R.ParsedReceipts, R.SignData, IsWindow;
    R.ParseReceiptsBytes(Receipted(p.v, c, timestamp).receipts);
    assert Clamped(p.v.epochCost) == p.v.epochCost;
  }

  lemma StepKeepsInv(p: Process, c: Setup, e: Event)
    requires Inv(p, c) && Allowed(p, c, e)
    ensures Inv(Step(p, c, e), c)
  {
    hide Windowed, IsWindow, R.ParsedReceipts, TickCost, TotalCharged;
    match e {
      case Tick(run) =>
        TickKeepsLedger(p, c, run);
        TickKeepsTheWindow(p, c, run);
      case Checkpoint(timestamp, saved) => CheckpointKeeps(p, c, timestamp, saved);
      case Restart(budget, tick) => EmptyWindow(c.Max());
    }
  }

  lemma EmptyWindow(max: nat)
    ensures IsWindow([], [], max)
  {
  }

  lemma {:induction false} RunKeepsInv(p: Process, c: Setup, es: seq<Event>)
    requires Inv(p, c) && AllowedRun(p, c, es)
    ensures Inv(Run(p, c, es), c)
    decreases |es|
  {
    if es != [] {
      StepKeepsInv(p, c, es[0]);
      RunKeepsInv(Step(p, c, es[0]), c, es[1..]);
    }
  }

  lemma FreshInv(budget: int, tick: uint64, c: Setup)
    requires 0 <= budget <= MAX_INT64 - MAX_TICK_COST
    ensures Inv(Fresh(budget, tick, None), c)
  {
  }

  /** Within one process money is conserved: what it started with is what is left plus every
      tick's cost plus every payment, and the budget is never more than one tick overdrawn. */
  lemma BudgetIsConserved(budget: int, tick: uint64, c: Setup, es: seq<Event>)
    requires 0 <= budget <= MAX_INT64 - MAX_TICK_COST && AllowedRun(Fresh(budget, tick, None), c, es)
    ensures
      var p := Run(Fresh(budget, tick, None), c, es);
      p.startBudget == p.v.budget + p.costs + p.paid && p.v.budget >= -MAX_TICK_COST
  {
    FreshInv(budget, tick, c);
    RunKeepsInv(Fresh(budget, tick, None), c, es);
  }

  /** The bound is reached: in one tick, pay everything and then run as long as the guard lets
      through. */
  lemma OverdraftBoundIsTight(signer: P.Signer) returns (c: Setup, es: seq<Event>)
    ensures AllowedRun(Fresh(1, 0, None), c, es)
    ensures Run(Fresh(1, 0, None), c, es).v.budget == -MAX_TICK_COST
  {
    hide Windowed, P.Receipt;
    c := Setup(1, P.Policy(0, []), signer, 0, [], [], None);
    var payment := Payment(P.Request(1, 0, Some([]), 0, None, 1000, true), 0);
    var run := Completed([payment], [], [], None, MAX_INT64, false);
    es := [Tick(run)];
    assert Charged(1, c, payment) == 1;
    assert [payment][1..] == [];
    assert TotalCharged(1, c, [payment]) == 1;
    assert MAX_INT64 / 1 == MAX_INT64;
    assert TickCost(MAX_INT64, 1, 0) == MAX_TICK_COST;
    assert es[1..] == [];
    assert Run(Step(Fresh(1, 0, None), c, es[0]), c, []) == Step(Fresh(1, 0, None), c, es[0]);
  }

  /** What that instance saves then cannot be loaded by any instance, under any identity. */
  lemma OverdrawnCheckpointIsLost(signer: P.Signer, crypto: K.Crypto, id: Option<K.Identity>, state: bytes,
                                  wasmHash: bytes, lease: Option<K.LeaseInfo>, prevHash: bytes, w: K.Value)
    returns (c: Setup, es: seq<Event>, v: K.Value)
    requires crypto.Valid() && (id.Some? ==> id.value.Valid(crypto))
    requires |wasmHash| == 32 && |prevHash| == 32 && w.WellFormed() && w.meter.wasmHash == wasmHash
    ensures AllowedRun(Fresh(1, 0, None), c, es)
    ensures
      var p := Run(Fresh(1, 0, None), c, es);
      p.v.budget < 0 && p.v.budget >= -MAX_INT64 && v == K.Value(K.Meter(p.v.budget, c.price, p.v.tick, wasmHash), lease, prevHash)
    ensures K.Loaded(w, crypto, Some(K.Built(v, crypto, id, state))) == (w, Err("invalid checkpoint"))
  {
    hide K.HeaderBytes, K.ParseCheckpointHeader, AllowedRun, Run;
    c, es := OverdraftBoundIsTight(signer);
    var p := Run(Fresh(1, 0, None), c, es);
    v := K.Value(K.Meter(p.v.budget, c.price, p.v.tick, wasmHash), lease, prevHash);
    var h := K.BuiltHeader(v, crypto, id, state);
    assert h.WellFormed();
    K.ParseOfBytes(h, state);
  }

  /** Receipts tile the tick line, across restarts too, and account for every cost of the process. */
  lemma ReceiptsTileAndAccount(budget: int, tick: uint64, c: Setup, es: seq<Event>)
    requires 0 <= budget <= MAX_INT64 - MAX_TICK_COST && AllowedRun(Fresh(budget, tick, None), c, es)
    ensures
      var p := Run(Fresh(budget, tick, None), c, es);
      Tiles(p.v.receipts) && p.receipted + p.v.epochCost == p.costs
  {
    FreshInv(budget, tick, c);
    RunKeepsInv(Fresh(budget, tick, None), c, es);
  }

  /** The nanoseconds times price of every tick this process completed, `before` being that of p. */
  function Worked(p: Process, c: Setup, es: seq<Event>, before: nat): nat
    decreases |es|
  {
    if es == [] then before
    else
      var now := if es[0].Restart? then 0
                 else if es[0].Tick? && Ticked(p.v, c, es[0].run).1 then before + Product(es[0].run.nanos, c.price)
                 else before;
      Worked(Step(p, c, es[0]), c, es[1..], now)
  }

  function Product(nanos: Amount, price: Amount): nat {
    Times(0, nanos, price);
    nanos * price
  }

  /** No completed tick is long enough for the cap. */
  ghost predicate Uncapped(p: Process, c: Setup, es: seq<Event>)
    decreases |es|
  {
    es == [] ||
    ((es[0].Tick? && Ticked(p.v, c, es[0].run).1 ==> Product(es[0].run.nanos, c.price) <= MAX_INT64)
     && Uncapped(Step(p, c, es[0]), c, es[1..]))
  }

  ghost predicate Accounted(p: Process, work: nat) {
    p.costs * 1_000_000_000 <= work <= p.costs * 1_000_000_000 + |p.completed| * 999_999_999
  }

  lemma {:induction false} RunKeepsAccounted(p: Process, c: Setup, es: seq<Event>, work: nat)
    requires Accounted(p, work) && Uncapped(p, c, es)
    ensures Accounted(Run(p, c, es), Worked(p, c, es, work))
    decreases |es|
  {
    hide Ticked, Receipted, TickCost, TotalCharged, Product, Fresh;
    if es != [] {
      var next := Step(p, c, es[0]);
      match es[0] {
        case Tick(run) =>
          var (v, ok) := Ticked(p.v, c, run);
          if ok {
            CompletedRun(p.v, c, run);
            var paid := if v.tick == p.v.tick then 0 else TotalCharged(p.v.budget, c, PaymentsOf(run));
            ProductSays(run.nanos, c.price, p.v.budget - paid);
            RunKeepsAccounted(next, c, es[1..], work + Product(run.nanos, c.price));
          } else {
            RunKeepsAccounted(next, c, es[1..], work);
          }
        case Checkpoint(_, _) => RunKeepsAccounted(next, c, es[1..], work);
        case Restart(budget, tick) =>
          NothingWorked(budget, tick, p.file);
          RunKeepsAccounted(next, c, es[1..], 0);
      }
    }
  }

  lemma CompletedRun(v: Value, c: Setup, run: TickRun)
    ensures Ticked(v, c, run).1 ==> run.Completed?
  {
  }

  lemma ProductSays(nanos: Amount, price: Amount, budget: int)
    requires Product(nanos, price) <= MAX_INT64
    ensures
      var cost := TickCost(nanos, price, budget);
      cost * 1_000_000_000 <= Product(nanos, price) <= cost * 1_000_000_000 + 999_999_999
  {
    hide TickCost;
    CostSays(nanos, price, budget);
  }

  lemma NothingWorked(budget: int, tick: uint64, file: Option<bytes>)
    ensures Accounted(Fresh(budget, tick, file), 0)
  {
  }

  /** Over a whole process, with no tick long enough for the cap: what the ticks cost is their
      nanoseconds times the price, less a fraction of one unit for each tick. */
  lemma CostsFollowWork(budget: int, tick: uint64, c: Setup, es: seq<Event>)
    requires Uncapped(Fresh(budget, tick, None), c, es)
    ensures
      var p := Run(Fresh(budget, tick, None), c, es);
      var work := Worked(Fresh(budget, tick, None), c, es, 0);
      p.costs * 1_000_000_000 <= work <= p.costs * 1_000_000_000 + |p.completed| * 999_999_999
  {
    NothingWorked(budget, tick, None);
    RunKeepsAccounted(Fresh(budget, tick, None), c, es, 0);
  }

  /** The receipts a run issues, restarts included. */
  function Issued(p: Process, c: Setup, es: seq<Event>): seq<R.Receipt>
    decreases |es|
  {
    if es == [] then []
    else
      var next := Step(p, c, es[0]);
      (if es[0].Checkpoint? && c.signReceipt.Some? && next.v.receipts != [] then [next.v.receipts[|next.v.receipts| - 1]] else [])
      + Issued(next, c, es[1..])
  }

  /** In one process the costs in the issued receipts and the open epoch add up to all that its ticks cost. */
  lemma ReceiptsCarryTheCosts(budget: int, tick: uint64, c: Setup, es: seq<Event>)
    requires 0 <= budget <= MAX_INT64 - MAX_TICK_COST && AllowedRun(Fresh(budget, tick, None), c, es)
    requires forall k :: 0 <= k < |es| ==> !es[k].Restart?
    ensures
      var p := Run(Fresh(budget, tick, None), c, es);
      Costs(Issued(Fresh(budget, tick, None), c, es)) + p.v.epochCost == p.costs
  {
    hide Run, Issued, AllowedRun;
    FreshInv(budget, tick, c);
    RunKeepsInv(Fresh(budget, tick, None), c, es);
    ReceiptedIsIssued(Fresh(budget, tick, None), c, es);
  }

  lemma {:induction false} ReceiptedIsIssued(p: Process, c: Setup, es: seq<Event>)
    requires forall k :: 0 <= k < |es| ==> !es[k].Restart?
    ensures Run(p, c, es).receipted == p.receipted + Costs(Issued(p, c, es))
    decreases |es|
  {
    hide R.SignData, R.ReceiptsBytes, Fresh, Ticked, Clamped;
    if es != [] {
      var next := Step(p, c, es[0]);
      ReceiptedIsIssued(next, c, es[1..]);
      var rest := Issued(next, c, es[1..]);
      if es[0].Checkpoint? && c.signReceipt.Some? {
        var r := next.v.receipts[|next.v.receipts| - 1];
        assert ([r] + rest)[1..] == rest;
        assert Issued(p, c, es) == [r] + rest;
      } else {
        assert Issued(p, c, es) == [] + rest == rest;
      }
    }
  }

  /** Each of its receipts is cut at a later tick than the one before it. */
  predicate AdvancingRun(p: Process, c: Setup, es: seq<Event>)
    decreases |es|
  {
    es == [] ||
    ((es[0].Checkpoint? && c.signReceipt.Some? ==> Advanced(p.v)) && AdvancingRun(Step(p, c, es[0]), c, es[1..]))
  }

  /** Every receipt a run issues is for at least one tick exactly if each is cut at a later tick
      than the last one. */
  lemma {:induction false} ReceiptsCoverIff(p: Process, c: Setup, es: seq<Event>)
    ensures (forall r :: r in Issued(p, c, es) ==> Covers(r)) <==> AdvancingRun(p, c, es)
    decreases |es|
  {
    hide R.SignData, R.ReceiptsBytes, Fresh, Ticked;
    if es != [] {
      var next := Step(p, c, es[0]);
      ReceiptsCoverIff(next, c, es[1..]);
      if es[0].Checkpoint? && c.signReceipt.Some? {
        var r := next.v.receipts[|next.v.receipts| - 1];
        assert Covers(r) <==> Advanced(p.v);
        assert Issued(p, c, es) == [r] + Issued(next, c, es[1..]);
      } else {
        assert Issued(p, c, es) == [] + Issued(next, c, es[1..]);
      }
    }
  }

  /** Two checkpoints at one tick: the second receipt ends before it starts. */
  lemma SecondReceiptCoversNothing(budget: int, tick: uint64, c: Setup, timestamp: int64)
    requires c.signReceipt.Some? && tick < TWO_TO_THE_64 - 1
    ensures
      var v := Run(Fresh(budget, tick, None), c, [Checkpoint(timestamp, true), Checkpoint(timestamp, true)]).v;
      |v.receipts| == 2 && v.receipts[1].epochStart == tick + 1 && v.receipts[1].epochEnd == tick
  {
    hide R.SignData, R.ReceiptsBytes;
    var es := [Checkpoint(timestamp, true), Checkpoint(timestamp, true)];
    var p := Fresh(budget, tick, None);
    var q := Step(p, c, es[0]);
    assert es[1..] == [es[1]] && es[1..][1..] == [];
    assert Run(p, c, es) == Run(q, c, [es[1]]);
    assert Run(q, c, [es[1]]) == Run(Step(q, c, es[1]), c, []);
  }

  /** After any run the window is the newest completed tick behind the best max-1 of the rest. */
  lemma WindowIsOfflineTopK(budget: int, tick: uint64, c: Setup, es: seq<Event>)
    requires 0 <= budget <= MAX_INT64 - MAX_TICK_COST && AllowedRun(Fresh(budget, tick, None), c, es)
    ensures
      var p := Run(Fresh(budget, tick, None), c, es);
      var n := |p.completed|;
      if n == 0 then p.v.window == []
      else
        && |p.v.window| > 0
        && p.v.window[|p.v.window| - 1] == p.completed[n - 1]
        && IsTopK(p.v.window[..|p.v.window| - 1], p.completed[..n - 1], c.Max() - 1)
  {
    FreshInv(budget, tick, c);
    RunKeepsInv(Fresh(budget, tick, None), c, es);
  }

  /** What that selection means: of n completed ticks the window holds n, or as many as it may, and no
      earlier one it dropped recorded more than one it kept, nor as much and later. */
  lemma WindowKeepsTheMostObserved(budget: int, tick: uint64, c: Setup, es: seq<Event>)
    requires 0 <= budget <= MAX_INT64 - MAX_TICK_COST && AllowedRun(Fresh(budget, tick, None), c, es)
    ensures
      var p := Run(Fresh(budget, tick, None), c, es);
      var n, max := |p.completed|, if c.windowMax <= 0 then 16 else c.windowMax;
      && |p.v.window| == (if n < max then n else max)
      && (n > 0 ==>
            var kept := p.v.window[..|p.v.window| - 1];
            forall x, y :: x in kept && y in p.completed[..n - 1] && y !in kept ==>
              Entries(x) > Entries(y) || (Entries(x) == Entries(y) && x.tick > y.tick))
  {
    hide Run, AllowedRun, IsWindow, Entries;
    FreshInv(budget, tick, c);
    RunKeepsInv(Fresh(budget, tick, None), c, es);
    var p := Run(Fresh(budget, tick, None), c, es);
    if p.completed == [] {
      NoWindow(p.v.window, c.Max());
    } else {
      FullWindow(p.v.window, p.completed, c.Max());
    }
  }

  lemma NoWindow(w: seq<Snapshot>, max: nat)
    requires IsWindow(w, [], max)
    ensures w == []
  {
  }

  lemma FullWindow(w: seq<Snapshot>, all: seq<Snapshot>, max: nat)
    requires max > 0 && all != [] && IsWindow(w, all, max)
    ensures |w| == if |all| < max then |all| else max
    ensures
      forall x, y :: x in w[..|w| - 1] && y in all[..|all| - 1] && y !in w[..|w| - 1] ==>
        Entries(x) > Entries(y) || (Entries(x) == Entries(y) && x.tick > y.tick)
  {
    hide IsWindow, IsTopK, Entries;
    WindowParts(w, all, max);
    AscendingInit(all);
    TopKSays(w[..|w| - 1], all[..|all| - 1], max - 1);
  }

  lemma AscendingInit(all: seq<Snapshot>)
    requires all != [] && Ascending(all)
    ensures Ascending(all[..|all| - 1])
  {
  }

  lemma TopKSays(best: seq<Snapshot>, all: seq<Snapshot>, k: nat)
    requires IsTopK(best, all, k) && Ascending(all)
    ensures |best| == if |all| < k then |all| else k
    ensures
      forall x, y :: x in best && y in all && y !in best ==>
        Entries(x) > Entries(y) || (Entries(x) == Entries(y) && x.tick > y.tick)
  {
    ElementsCount(best);
    ElementsCount(all);
    SubsetSize(Elements(best), Elements(all));
  }

  // ----- The class -----

  class Instance {
    const setup: Setup
    var budget: int
    var tickNumber: uint64
    var replayWindow: seq<Snapshot>
    var receipts: seq<R.Receipt>
    var lastReceiptTick: uint64
    var epochCost: int

    function View(): Value
      reads this
    {
      Value(budget, tickNumber, replayWindow, receipts, lastReceiptTick, epochCost)
    }

    constructor (c: Setup, budget: int)
      ensures setup == c && View() == Value(budget, 0, [], [], 0, 0)
    {
      setup := c;
      this.budget, tickNumber, replayWindow, receipts, lastReceiptTick, epochCost := budget, 0, [], [], 0, 0;
    }

    method DeductBudget(amount: int) returns (ok: bool)
      modifies this`budget
      ensures ok == (old(budget) >= amount)
      ensures budget == if ok then old(budget) - amount else old(budget)
    {
      if budget < amount {
        return false;
      }
      budget := budget - amount;
      ok := true;
    }

    /** One wallet_pay call from inside the tick. */
    method WalletPay(p: Payment) returns (r: P.Response)
      modifies this`budget
      ensures r == P.Pay(old(budget), setup.policy, setup.signer, p.req, p.timestamp)
      ensures budget == old(budget) - r.charged
    {
      hide P.Receipt;
      r := P.Pay(budget, setup.policy, setup.signer, p.req, p.timestamp);
      if r.charged > 0 {
        var ok := DeductBudget(r.charged);
      }
    }

    /** The price of the time a tick ran, taken out of the budget even if it is not covered. */
    method Meter(nanos: Amount)
      modifies this`budget, this`epochCost
      ensures
        var cost := TickCost(nanos, setup.price, old(budget));
        budget == old(budget) - cost && epochCost == old(epochCost) + cost
      ensures
        var cost := old(budget) - budget;
        if nanos * setup.price > MAX_INT64 then cost == old(budget)
        else cost * 1_000_000_000 <= nanos * setup.price < (cost + 1) * 1_000_000_000
    {
      CostSays(nanos, setup.price, budget);
      var cost;
      if setup.price > 0 && nanos > MAX_INT64 / setup.price {
        cost := budget;
      } else {
        cost := nanos * setup.price / NANOS_PER_SECOND;
      }
      budget := budget - cost;
      epochCost := epochCost + cost;
    }

    method Remember(s: Snapshot)
      modifies this`replayWindow
      ensures replayWindow == Windowed(old(replayWindow), s, setup.Max())
    {
      replayWindow := replayWindow + [s];
      if |replayWindow| > setup.Max() {
        var e := FindEvicted(replayWindow);
        EvictedIsUnique(replayWindow, e, Evicted(replayWindow));
        replayWindow := replayWindow[..e] + replayWindow[e + 1..];
      }
    }

    method CreateReceipt(timestamp: int64)
      modifies this`receipts, this`lastReceiptTick, this`epochCost
      ensures View() == Receipted(old(View()), setup, timestamp)
    {
      if setup.signReceipt.None? {
        return;
      }
      var r := R.Receipt(setup.agentID, setup.nodeID, Inc64(lastReceiptTick), tickNumber,
                         Clamped(epochCost), Clamped(budget), timestamp, []);
      var data := R.MarshalSignData(r);
      receipts := receipts + [r.(signature := setup.signReceipt.value(data))];
      lastReceiptTick := tickNumber;
      epochCost := 0;
    }

    /** The part of a resume that restores metering and receipts; a receipt file that is
        missing or does not parse leaves the receipts as they were. */
    method LoadMetering(budget: int, tick: uint64, stored: Option<bytes>)
      modifies this`budget, this`tickNumber, this`receipts, this`lastReceiptTick
      ensures this.budget == budget && tickNumber == tick
      ensures
        var rs := if stored.None? then None else R.ParsedReceipts(stored.value);
        && receipts == (if rs.Some? then rs.value else old(receipts))
        && lastReceiptTick == (if rs.Some? && rs.value != [] then rs.value[|rs.value| - 1].epochEnd else old(lastReceiptTick))
      ensures
        old(View()) == Value(old(this.budget), old(tickNumber), [], [], 0, 0)
        ==> View() == Reloaded(budget, tick, stored)
    {
      hide R.ParsedReceipts;
      this.budget, tickNumber := budget, tick;
      if stored.Some? {
        var rs := R.UnmarshalReceipts(stored.value);
        if rs.Some? {
          receipts := rs.value;
          if |receipts| > 0 {
            lastReceiptTick := receipts[|receipts| - 1].epochEnd;
          }
        }
      }
    }
  }
}
