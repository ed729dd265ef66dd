/** The liquidation watcher (agents/liquidation/main.go): a world that is a function of
    time, and an agent that must end up the same however often it was away. */
module Liquidation {
  import opened Bytes
  import opened Encoding

  const NANOS_PER_SLOT: int := 1_000_000_000
  const THRESHOLD_CENTS: nat := 155000

  datatype ControlPoint = ControlPoint(slot: nat, price: nat)

  const CURVE: seq<ControlPoint> := [
    ControlPoint(0, 200000), ControlPoint(5, 205000), ControlPoint(10, 192000), ControlPoint(15, 198000),
    ControlPoint(20, 185000), ControlPoint(25, 178000), ControlPoint(30, 182000), ControlPoint(35, 165000),
    ControlPoint(38, 154000), ControlPoint(40, 158000), ControlPoint(45, 162000), ControlPoint(50, 170000),
    ControlPoint(55, 175000)
  ]

  function Interpolated(prev: ControlPoint, next: ControlPoint, slot: nat): nat
    requires prev.slot < slot <= next.slot
  {
    var span, offset := next.slot - prev.slot, slot - prev.slot;
    if next.price >= prev.price then prev.price + Share(next.price - prev.price, offset, span)
    else prev.price - Share(prev.price - next.price, offset, span)
  }

  function Share(a: nat, offset: nat, span: nat): (r: nat)
    requires 0 < offset <= span
    ensures r <= a
  {
    ShareAtMost(a, offset, span);
    a * offset / span
  }

  lemma ShareAtMost(a: nat, offset: nat, span: nat)
    requires 0 < offset <= span
    ensures 0 <= a * offset / span <= a
  {
    Scaled(a, offset, span);
    Divided(a * offset, span);
    var q := a * offset / span;
    if q > a {
      Grows(a, q, span);
    }
  }

  lemma Scaled(a: nat, low: nat, high: nat)
    requires low <= high
    ensures 0 <= a * low <= a * high
  {
    assert a * high == a * low + a * (high - low);
  }

  lemma Divided(x: nat, span: nat)
    requires span > 0
    ensures 0 <= x / span && x / span * span <= x
  {
    assert x == x / span * span + x % span;
  }

  lemma Grows(a: nat, q: nat, span: nat)
    requires q > a && span > 0
    ensures q * span >= a * span + span
  {
    AtLeastOnce(q - a, span);
    assert q * span == a * span + (q - a) * span;
  }

  lemma AtLeastOnce(k: nat, span: nat)
    requires k >= 1
    ensures k * span >= span
  {
  }

  /** The first segment at or after index i that reaches the slot; the last price beyond the curve. */
  function PriceFrom(curve: seq<ControlPoint>, slot: nat, i: nat): nat
    requires 1 <= i <= |curve| && curve[i - 1].slot < slot
    decreases |curve| - i
  {
    if i == |curve| then curve[i - 1].price
    else if slot <= curve[i].slot then Interpolated(curve[i - 1], curve[i], slot)
    else PriceFrom(curve, slot, i + 1)
  }

  function PriceOn(curve: seq<ControlPoint>, slot: nat): nat
    requires curve != []
  {
    if slot <= curve[0].slot then curve[0].price else PriceFrom(curve, slot, 1)
  }

  const HIGHEST_PRICE: nat := 205000

  function PriceAtSlot(slot: nat): uint64 {
    PricesAreBounded(slot);
    PriceOn(CURVE, slot)
  }

  lemma {:induction false} PriceFromBounded(curve: seq<ControlPoint>, slot: nat, i: nat, high: nat)
    requires 1 <= i <= |curve| && curve[i - 1].slot < slot
    requires forall k :: 0 <= k < |curve| ==> curve[k].price <= high
    ensures PriceFrom(curve, slot, i) <= high
    decreases |curve| - i
  {
    if i < |curve| && slot > curve[i].slot {
      PriceFromBounded(curve, slot, i + 1, high);
    }
  }

  lemma PricesAreBounded(slot: nat)
    ensures PriceOn(CURVE, slot) <= HIGHEST_PRICE
  {
    if slot > 0 {
      PriceFromBounded(CURVE, slot, 1, HIGHEST_PRICE);
    }
  }

  // ----- What the curve is -----

  /** The share is the exact fraction, rounded down. */
  lemma ShareSays(a: nat, offset: nat, span: nat)
    requires 0 < offset <= span
    ensures Share(a, offset, span) * span <= a * offset < (Share(a, offset, span) + 1) * span
    ensures offset == span ==> Share(a, offset, span) == a
  {
    Scaled(a, offset, span);
    Divided(a * offset, span);
    var q := Share(a, offset, span);
    assert (q + 1) * span == q * span + span;
    if offset == span && q < a {
      Scaled(span, q + 1, a);
      assert false;
    }
  }

  /** On the segment from prev to next the price moves by the exact share of the segment's change, rounded
      towards the segment's start. */
  ghost predicate OnSegment(prev: ControlPoint, next: ControlPoint, slot: nat, price: int) {
    var span, offset := next.slot - prev.slot, slot - prev.slot;
    if next.price >= prev.price then
      (price - prev.price) * span <= (next.price - prev.price) * offset < (price - prev.price + 1) * span
    else
      (prev.price - price) * span <= (prev.price - next.price) * offset < (prev.price - price + 1) * span
  }

  lemma InterpolatedSays(prev: ControlPoint, next: ControlPoint, slot: nat)
    requires prev.slot < slot <= next.slot
    ensures OnSegment(prev, next, slot, Interpolated(prev, next, slot))
    ensures slot == next.slot ==> Interpolated(prev, next, slot) == next.price
  {
    hide Share;
    var span, offset := next.slot - prev.slot, slot - prev.slot;
    if next.price >= prev.price {
      ShareSays(next.price - prev.price, offset, span);
    } else {
      ShareSays(prev.price - next.price, offset, span);
    }
  }

  lemma {:induction false} PriceFromSays(curve: seq<ControlPoint>, slot: nat, i: nat, k: nat)
    requires 1 <= i <= k < |curve| && curve[i - 1].slot < slot
    requires curve[k - 1].slot < slot <= curve[k].slot
    requires forall j :: 0 < j < |curve| ==> curve[j - 1].slot < curve[j].slot
    ensures PriceFrom(curve, slot, i) == Interpolated(curve[k - 1], curve[k], slot)
    decreases k - i
  {
    hide Interpolated;
    if i < k {
      SlotsAscend(curve, i, k - 1);
      PriceFromSays(curve, slot, i + 1, k);
    }
  }

  lemma {:induction false} SlotsAscend(curve: seq<ControlPoint>, i: nat, k: nat)
    requires i <= k < |curve|
    requires forall j :: 0 < j < |curve| ==> curve[j - 1].slot < curve[j].slot
    ensures curve[i].slot <= curve[k].slot
  {
    if i < k {
      SlotsAscend(curve, i, k - 1);
    }
  }

  lemma CurveAscends(k: nat)
    requires 0 < k < 13
    ensures |CURVE| == 13 && CURVE[k - 1].slot < CURVE[k].slot
  {
  }

  /** Each slot's price: the control points' own at their slots, the exact interpolation rounded towards
      the earlier point in between, and the last one's for ever. */
  lemma PriceSays(slot: nat, k: nat)
    requires 0 < k < 13
    ensures |CURVE| == 13 && PriceAtSlot(0) == 200_000
    ensures PriceAtSlot(CURVE[k].slot) == CURVE[k].price
    ensures CURVE[k - 1].slot < slot <= CURVE[k].slot ==> OnSegment(CURVE[k - 1], CURVE[k], slot, PriceAtSlot(slot))
    ensures slot >= 55 ==> PriceAtSlot(slot) == 175_000
  {
    hide Interpolated, OnSegment, PriceFrom;
    forall j | 0 < j < |CURVE|
      ensures CURVE[j - 1].slot < CURVE[j].slot
    {
      CurveAscends(j);
    }
    InterpolatedSays(CURVE[k - 1], CURVE[k], CURVE[k].slot);
    SlotsAscend(CURVE, 0, k - 1);
    PriceFromSays(CURVE, CURVE[k].slot, 1, k);
    if CURVE[k - 1].slot < slot <= CURVE[k].slot {
      InterpolatedSays(CURVE[k - 1], CURVE[k], slot);
      PriceFromSays(CURVE, slot, 1, k);
    }
    if slot == 55 {
      PriceFromSays(CURVE, slot, 1, 12);
      InterpolatedSays(CURVE[11], CURVE[12], slot);
    } else if slot > 55 {
      BeyondCurve(CURVE, slot, 1);
    }
  }

  lemma {:induction false} BeyondCurve(curve: seq<ControlPoint>, slot: nat, i: nat)
    requires 1 <= i <= |curve| && curve[i - 1].slot < slot && curve[|curve| - 1].slot < slot
    requires forall j :: 0 < j < |curve| ==> curve[j - 1].slot < curve[j].slot
    ensures PriceFrom(curve, slot, i) == curve[|curve| - 1].price
    decreases |curve| - i
  {
    if i < |curve| {
      SlotsAscend(curve, i, |curve| - 1);
      BeyondCurve(curve, slot, i + 1);
    }
  }

  method ComputePriceAtSlot(slot: nat) returns (price: uint64)
    ensures price == PriceAtSlot(slot)
  {
    PricesAreBounded(slot);
    price := SearchCurve(CURVE, slot);
  }

  method SearchCurve(curve: seq<ControlPoint>, slot: nat) returns (price: nat)
    requires curve != []
    ensures price == PriceOn(curve, slot)
  {
    if slot <= curve[0].slot {
      return curve[0].price;
    }
    for i := 1 to |curve|
      invariant curve[i - 1].slot < slot
      invariant PriceOn(curve, slot) == PriceFrom(curve, slot, i)
    {
      if slot <= curve[i].slot {
        return Interpolated(curve[i - 1], curve[i], slot);
      }
    }
    return curve[|curve| - 1].price;
  }

  lemma {:induction false} PriceFromPositive(curve: seq<ControlPoint>, slot: nat, i: nat)
    requires 1 <= i <= |curve| && curve[i - 1].slot < slot
    requires forall k :: 0 <= k < |curve| ==> curve[k].price > 0
    ensures PriceFrom(curve, slot, i) > 0
    decreases |curve| - i
  {
    if i < |curve| {
      if slot <= curve[i].slot {
        assert Interpolated(curve[i - 1], curve[i], slot) > 0;
      } else {
        PriceFromPositive(curve, slot, i + 1);
      }
    }
  }

  /** Zero is free to mean "not yet seen": no slot has price zero, and slot 0 is above the threshold. */
  lemma PricesArePositive(slot: nat)
    ensures PriceAtSlot(slot) > 0
    ensures PriceAtSlot(0) >= THRESHOLD_CENTS
  {
    if slot > 0 {
      PriceFromPositive(CURVE, slot, 1);
    }
  }

  /** A world the watcher can follow. */
  ghost predicate Proper(p: nat -> uint64) {
    p(0) >= THRESHOLD_CENTS && forall slot: nat :: p(slot) > 0
  }

  type World = p: nat -> uint64 | Proper(p) witness (slot => THRESHOLD_CENTS)

  function CurveWorld(): World {
    var p: nat -> uint64 := slot => PriceAtSlot(slot);
    CurveIsProper(p);
    p
  }

  lemma CurveIsProper(p: nat -> uint64)
    requires forall slot: nat :: p(slot) == PriceAtSlot(slot)
    ensures Proper(p)
  {
    PricesArePositive(0);
    forall slot: nat
      ensures p(slot) > 0
    {
      PricesArePositive(slot);
    }
  }

  // ----- What the watcher knows -----

  datatype Watch = Watch(latest: uint64, high: uint64, low: uint64, firstWarning: uint64, warning: bool)

  const UNSEEN := Watch(0, 0, 0, 0, false)

  function Seen(p: World, w: Watch, slot: uint64): Watch {
    var price := p(slot);
    var below := price < THRESHOLD_CENTS;
    Watch(
      price,
      if w.high == 0 || price > w.high then price else w.high,
      if w.low == 0 || price < w.low then price else w.low,
      if below && w.firstWarning == 0 then slot else w.firstWarning,
      below)
  }

  /** Slots from..to-1, once each in order. */
  function SeenRange(p: World, w: Watch, from: nat, until: nat): Watch
    requires until <= TWO_TO_THE_64
    decreases until - from
  {
    if from >= until then w else Seen(p, SeenRange(p, w, from, until - 1), until - 1)
  }

  /** The watch of an agent that was never away: slots 0 to last, once each in order. */
  function History(p: World, last: uint64): Watch { SeenRange(p, UNSEEN, 0, last + 1) }

  lemma {:induction false} SeenRangeSplits(p: World, w: Watch, from: nat, mid: nat, until: nat)
    requires from <= mid <= until <= TWO_TO_THE_64
    ensures SeenRange(p, SeenRange(p, w, from, mid), mid, until) == SeenRange(p, w, from, until)
    decreases until - mid
  {
    if mid < until {
      SeenRangeSplits(p, w, from, mid, until - 1);
    }
  }

  ghost predicate IsHistory(p: World, w: Watch, last: nat) {
    && w.latest == p(last)
    && (forall s :: 0 <= s <= last ==> w.low <= p(s) <= w.high)
    && (exists s :: 0 <= s <= last && p(s) == w.high)
    && (exists s :: 0 <= s <= last && p(s) == w.low)
    && (w.firstWarning == 0 ==> forall s :: 0 <= s <= last ==> p(s) >= THRESHOLD_CENTS)
    && (w.firstWarning != 0 ==>
          w.firstWarning <= last && p(w.firstWarning) < THRESHOLD_CENTS
          && forall s :: 0 <= s < w.firstWarning ==> p(s) >= THRESHOLD_CENTS)
    && w.warning == (p(last) < THRESHOLD_CENTS)
  }

  lemma SeenKeepsMeaning(p: World, w: Watch, last: uint64)
    requires last > 0 && IsHistory(p, w, last - 1)
    ensures IsHistory(p, Seen(p, w, last), last)
  {
    var v := Seen(p, w, last);
    var hi :| 0 <= hi <= last - 1 && p(hi) == w.high;
    var lo :| 0 <= lo <= last - 1 && p(lo) == w.low;
    assert p(if v.high == w.high then hi else last) == v.high;
    assert p(if v.low == w.low then lo else last) == v.low;
  }

  /** What that history amounts to: the last price, the extremes, and the first slot ever below the threshold. */
  lemma {:induction false} HistoryMeaning(p: World, last: uint64)
    ensures IsHistory(p, History(p, last), last)
  {
    if last == 0 {
      assert SeenRange(p, UNSEEN, 0, 1) == Seen(p, SeenRange(p, UNSEEN, 0, 0), 0);
      assert p(0) == History(p, 0).high;
    } else {
      HistoryMeaning(p, last - 1);
      SeenKeepsMeaning(p, History(p, last - 1), last);
    }
  }

  /** Seeing the last slot again changes nothing. */
  lemma SeeingAgainChangesNothing(p: World, last: uint64)
    ensures Seen(p, History(p, last), last) == History(p, last)
  {
    HistoryMeaning(p, last);
  }

  // ----- Ticks -----

  datatype Watcher = Watcher(
    tickCount: uint64, birth: int64, lastNano: int64, lastSlot: uint64, watch: Watch, slotsProcessed: uint32)

  const UNBORN := Watcher(0, 0, 0, 0, UNSEEN, 0)

  /** The slot the clock is in: int64 subtraction, a division that truncates toward zero, and
      the quotient read as uint64. A clock before birth gives a huge slot. */
  function SlotAt(birth: int64, now: int64): uint64 {
    var d: int := ToSigned((now - birth) % TWO_TO_THE_64);
    if d >= 0 then d / NANOS_PER_SLOT else ToUnsigned(-((-d) / NANOS_PER_SLOT))
  }

  lemma SlotInRange(birth: int64, now: int64)
    requires 0 <= now - birth <= MAX_INT64
    ensures SlotAt(birth, now) == (now - birth) / NANOS_PER_SLOT
    ensures SlotAt(birth, now) <= MAX_INT64 / NANOS_PER_SLOT
  {
    assert (now - birth) % TWO_TO_THE_64 == now - birth;
  }

  function BirthAt(birth: int64, now: int64): int64 { if birth == 0 then now else birth }

  ghost predicate ClockInRange(w: Watcher, now: int64) {
    0 <= now - BirthAt(w.birth, now) <= MAX_INT64
  }

  /** The first slot that is still to be seen: the one after the last, unless the clock is no
      further than that. */
  function FirstUnseen(lastSlot: uint64, current: uint64): uint64 {
    if current > Inc64(lastSlot) then Inc64(lastSlot) else current
  }

  function Ticked(p: World, w: Watcher, now: int64): (v: Watcher) {
    var birth := BirthAt(w.birth, now);
    var current := SlotAt(birth, now);
    var count := Inc64(w.tickCount);
    if count == 1 then
      Watcher(count, birth, now, 0, Seen(p, w.watch, 0), (w.slotsProcessed + 1) % TWO_TO_THE_32)
    else
      var from := FirstUnseen(w.lastSlot, current);
      Watcher(count, birth, now, current, Seen(p, SeenRange(p, w.watch, from, current), current),
              (w.slotsProcessed + (current - from) + 1) % TWO_TO_THE_32)
  }

  // ----- Checkpoints -----

  function Marshalled(w: Watcher): bytes
  {
    U64(w.tickCount) + (I64(w.birth) + (I64(w.lastNano) + (U64(w.lastSlot) + (U64(w.watch.latest)
    + (U64(w.watch.high) + (U64(w.watch.low) + (U64(w.watch.firstWarning)
    + (U32(if w.watch.warning then 1 else 0) + U32(w.slotsProcessed)))))))))
  }

  function ReadTimes(r: Reader): (Watcher, Reader) {
    var (tickCount, r1) := r.ReadUint64();
    var (birth, r2) := r1.ReadInt64();
    var (lastNano, r3) := r2.ReadInt64();
    var (lastSlot, r4) := r3.ReadUint64();
    (Watcher(tickCount, birth, lastNano, lastSlot, UNSEEN, 0), r4)
  }

  function ReadWatch(r: Reader): (Watch, Reader) {
    var (latest, r1) := r.ReadUint64();
    var (high, r2) := r1.ReadUint64();
    var (low, r3) := r2.ReadUint64();
    var (firstWarning, r4) := r3.ReadUint64();
    var (warning, r5) := r4.ReadUint32();
    (Watch(latest, high, low, firstWarning, warning == 1), r5)
  }

  function ReadWatcher(r: Reader): (Watcher, Reader) {
    var (w, r1) := ReadTimes(r);
    var (watch, r2) := ReadWatch(r1);
    var (slots, r3) := r2.ReadUint32();
    (w.(watch := watch, slotsProcessed := slots), r3)
  }

  /** A short checkpoint makes the agent panic instead of resuming. */
  function Unmarshalled(data: bytes): Option<Watcher> {
    var (w, r) := ReadWatcher(Reader(data, false));
    if r.failed then None else Some(w)
  }

  lemma CheckpointRoundTrip(w: Watcher)
    ensures Unmarshalled(Marshalled(w)) == Some(w)
  {
    var t9 := U32(w.slotsProcessed);
    var t8 := U32(if w.watch.warning then 1 else 0) + t9;
    var t7 := U64(w.watch.firstWarning) + t8;
    var t6 := U64(w.watch.low) + t7;
    var t5 := U64(w.watch.high) + t6;
    var t4 := U64(w.watch.latest) + t5;
    var t3 := U64(w.lastSlot) + t4;
    var t2 := I64(w.lastNano) + t3;
    var t1 := I64(w.birth) + t2;
    Uint64Written(w.tickCount, t1);
    Int64Written(w.birth, t2);
    Int64Written(w.lastNano, t3);
    Uint64Written(w.lastSlot, t4);
    Uint64Written(w.watch.latest, t5);
    Uint64Written(w.watch.high, t6);
    Uint64Written(w.watch.low, t7);
    Uint64Written(w.watch.firstWarning, t8);
    Uint32Written(if w.watch.warning then 1 else 0, t9);
    assert t9 == U32(w.slotsProcessed) + [];
    Uint32Written(w.slotsProcessed, []);
  }

  // ----- Runs -----

  /** A tick at a clock reading, a checkpoint, or a resume from the k-th checkpoint taken so far. */
  datatype Event = TickAt(now: int64) | Save | Resume(k: nat)

  datatype RunState = RunState(w: Watcher, saves: seq<bytes>, clock: Option<int>)

  const START := RunState(UNBORN, [], None)

  /** The clock never goes back, readings stay within int64 of the first one, and the tick
      counter does not wrap. Checkpoints are taken after the first tick. */
  ghost predicate Allowed(s: RunState, e: Event) {
    match e
    case TickAt(now) =>
      && (s.clock.Some? ==> s.clock.value <= now)
      && ClockInRange(s.w, now)
      && s.w.tickCount + 1 < TWO_TO_THE_64
    case Save => s.w.tickCount > 0
    case Resume(k) => k < |s.saves| && Unmarshalled(s.saves[k]).Some?
  }

  function Step(p: World, s: RunState, e: Event): RunState
    requires Allowed(s, e)
  {
    match e
    case TickAt(now) => s.(w := Ticked(p, s.w, now), clock := Some(now))
    case Save => s.(saves := s.saves + [Marshalled(s.w)])
    case Resume(k) => s.(w := Unmarshalled(s.saves[k]).value)
  }

  ghost predicate AllowedRun(p: World, s: RunState, es: seq<Event>)
    decreases |es|
  {
    es == [] || (Allowed(s, es[0]) && AllowedRun(p, Step(p, s, es[0]), es[1..]))
  }

  function Run(p: World, s: RunState, es: seq<Event>): RunState
    requires AllowedRun(p, s, es)
    decreases |es|
  {
    if es == [] then s else Run(p, Step(p, s, es[0]), es[1..])
  }

  /** The watcher has seen exactly slots 0 to its last one. */
  ghost predicate Continuous(p: World, w: Watcher, clock: Option<int>) {
    && w.tickCount > 0
    && w.watch == History(p, w.lastSlot)
    && 0 <= w.lastNano - w.birth <= MAX_INT64
    && w.lastSlot == SlotAt(w.birth, w.lastNano)
    && (w.birth == 0 ==> w.lastNano == 0)
    && clock.Some? && w.lastNano <= clock.value
  }

  ghost predicate SavedContinuous(p: World, data: bytes, clock: Option<int>) {
    Unmarshalled(data).Some? && Continuous(p, Unmarshalled(data).value, clock)
  }

  ghost predicate Inv(p: World, s: RunState) {
    && (s.w == UNBORN || Continuous(p, s.w, s.clock))
    && (forall k :: 0 <= k < |s.saves| ==> SavedContinuous(p, s.saves[k], s.clock))
  }

  lemma TickKeepsContinuous(p: World, w: Watcher, clock: Option<int>, now: int64)
    requires w == UNBORN || Continuous(p, w, clock)
    requires ClockInRange(w, now) && w.tickCount + 1 < TWO_TO_THE_64
    requires clock.Some? ==> clock.value <= now
    ensures Continuous(p, Ticked(p, w, now), Some(now))
  {
    hide SlotAt, Seen, History;
    var v := Ticked(p, w, now);
    if w == UNBORN {
      FirstTickStarts(p, w, now);
    } else {
      SlotsAdvance(w.birth, w.lastNano, if w.birth == 0 then 0 else now);
      SlotsAdvance(now, now, now);
      assert w.birth == 0 ==> w.lastSlot == v.lastSlot;
      SeenUpTo(p, w.watch, w.lastSlot, v.lastSlot);
    }
  }

  lemma FirstTickStarts(p: World, w: Watcher, now: int64)
    requires w == UNBORN
    ensures Continuous(p, Ticked(p, w, now), Some(now))
  {
    hide Seen;
    SlotInRange(now, now);
    assert SeenRange(p, UNSEEN, 0, 0) == UNSEEN;
    assert History(p, 0) == Seen(p, UNSEEN, 0);
  }

  lemma SlotsAdvance(birth: int64, before: int64, now: int64)
    requires 0 <= before - birth && before <= now && now - birth <= MAX_INT64
    ensures SlotAt(birth, before) <= SlotAt(birth, now)
    ensures Inc64(SlotAt(birth, before)) == SlotAt(birth, before) + 1
    ensures before == birth ==> SlotAt(birth, before) == 0
  {
    SlotInRange(birth, before);
    SlotInRange(birth, now);
  }

  /** Seeing what is unseen so far, and the current slot, extends the history up to it. */
  lemma SeenUpTo(p: World, w: Watch, lastSlot: uint64, current: uint64)
    requires w == History(p, lastSlot) && lastSlot <= current && Inc64(lastSlot) == lastSlot + 1
    ensures Seen(p, SeenRange(p, w, FirstUnseen(lastSlot, current), current), current) == History(p, current)
  {
    hide Seen;
    if current == lastSlot {
      SeeingAgainChangesNothing(p, current);
      assert SeenRange(p, w, current, current) == w;
    } else {
      SeenRangeSplits(p, UNSEEN, 0, lastSlot + 1, current);
      assert History(p, current) == Seen(p, SeenRange(p, UNSEEN, 0, current), current);
    }
  }

  lemma StepKeepsInv(p: World, s: RunState, e: Event)
    requires Inv(p, s) && Allowed(s, e)
    ensures Inv(p, Step(p, s, e))
  {
    match e {
      case TickAt(now) => TickKeepsContinuous(p, s.w, s.clock, now);
      case Save => CheckpointRoundTrip(s.w);
      case Resume(k) => assert SavedContinuous(p, s.saves[k], s.clock);
    }
  }

  lemma {:induction false} RunKeepsInv(p: World, s: RunState, es: seq<Event>)
    requires Inv(p, s) && AllowedRun(p, s, es)
    ensures Inv(p, Run(p, s, es))
    decreases |es|
  {
    if es != [] {
      StepKeepsInv(p, s, es[0]);
      RunKeepsInv(p, Step(p, s, es[0]), es[1..]);
    }
  }

  /** Continuous, not alive: whatever was missed or repeated, the watcher knows what it would
      know had it processed every slot up to its last one exactly once. */
  lemma ContinuousNotAlive(p: World, es: seq<Event>)
    requires AllowedRun(p, START, es)
    ensures
      var w := Run(p, START, es).w;
      w.tickCount > 0 ==>
        && w.watch == History(p, w.lastSlot) && IsHistory(p, w.watch, w.lastSlot)
        && w.lastSlot * 1_000_000_000 <= w.lastNano - w.birth < (w.lastSlot + 1) * 1_000_000_000
  {
    RunKeepsInv(p, START, es);
    var w := Run(p, START, es).w;
    HistoryMeaning(p, w.lastSlot);
    if w.tickCount > 0 {
      SlotInRange(w.birth, w.lastNano);
    }
  }

  /** What one more tick changes besides that: the counters, the clock, and the birth of an unborn
      watcher; every slot passed since the last one is counted, and at least the current one. */
  lemma TickSays(p: World, w: Watcher, clock: int, now: int64)
    requires Continuous(p, w, Some(clock)) && clock <= now && ClockInRange(w, now) && w.tickCount + 1 < TWO_TO_THE_64
    ensures
      var v := Ticked(p, w, now);
      && v.tickCount == w.tickCount + 1 && v.lastNano == now && v.birth == (if w.birth == 0 then now else w.birth)
      && v.lastSlot >= w.lastSlot
      && v.slotsProcessed
         == (w.slotsProcessed + if v.lastSlot == w.lastSlot then 1 else v.lastSlot - w.lastSlot) % TWO_TO_THE_32
  {
    hide SlotAt, Seen, SeenRange;
    SlotsAdvance(w.birth, w.lastNano, if w.birth == 0 then 0 else now);
    SlotsAdvance(now, now, now);
  }

  /** The saved fields by position. */
  lemma LayoutSays(w: Watcher)
    ensures
      var b := Marshalled(w);
      && |b| == 72
      && b[..8] == U64(w.tickCount) && b[8..16] == I64(w.birth) && b[16..24] == I64(w.lastNano)
      && b[24..32] == U64(w.lastSlot) && b[32..40] == U64(w.watch.latest) && b[40..48] == U64(w.watch.high)
      && b[48..56] == U64(w.watch.low) && b[56..64] == U64(w.watch.firstWarning)
      && b[64..68] == U32(if w.watch.warning then 1 else 0) && b[68..] == U32(w.slotsProcessed)
  {
    hide U64, I64, U32;
    var back := U64(w.watch.high) + (U64(w.watch.low) + (U64(w.watch.firstWarning)
                + (U32(if w.watch.warning then 1 else 0) + U32(w.slotsProcessed))));
    FrontAt(U64(w.tickCount), I64(w.birth), I64(w.lastNano), U64(w.lastSlot), U64(w.watch.latest), back);
    BackAt(U64(w.watch.high), U64(w.watch.low), U64(w.watch.firstWarning), U32(if w.watch.warning then 1 else 0),
           U32(w.slotsProcessed));
    var b := Marshalled(w);
    assert b[40..] == back;
    assert b[40..48] == back[..8] && b[48..56] == back[8..16] && b[56..64] == back[16..24];
    assert b[64..68] == back[24..28] && b[68..] == back[28..];
  }

  lemma FrontAt(a: bytes, b: bytes, c: bytes, d: bytes, e: bytes, tail: bytes)
    requires |a| == |b| == |c| == |d| == |e| == 8
    ensures
      var x := a + (b + (c + (d + (e + tail))));
      && |x| == 40 + |tail| && x[..8] == a && x[8..16] == b && x[16..24] == c && x[24..32] == d && x[32..40] == e
      && x[40..] == tail
  {
  }

  lemma BackAt(a: bytes, b: bytes, c: bytes, d: bytes, e: bytes)
    requires |a| == |b| == |c| == 8 && |d| == |e| == 4
    ensures
      var x := a + (b + (c + (d + e)));
      && |x| == 32 && x[..8] == a && x[8..16] == b && x[16..24] == c && x[24..28] == d && x[28..] == e
  {
  }

  /** Two schedules of the same agent that last ticked at the same moment end up knowing the same. */
  lemma ScheduleDoesNotMatter(p: World, es: seq<Event>, fs: seq<Event>)
    requires AllowedRun(p, START, es) && AllowedRun(p, START, fs)
    requires
      var v, w := Run(p, START, es).w, Run(p, START, fs).w;
      v.tickCount > 0 && w.tickCount > 0 && v.birth == w.birth && v.lastNano == w.lastNano
    ensures Run(p, START, es).w.watch == Run(p, START, fs).w.watch
    ensures Run(p, START, es).w.lastSlot == Run(p, START, fs).w.lastSlot
  {
    RunKeepsInv(p, START, es);
    RunKeepsInv(p, START, fs);
  }

  // ----- The class -----

  class LiquidationWatcher {
    var tickCount: uint64
    var birth: int64
    var lastNano: int64
    var lastSlot: uint64
    var watch: Watch
    var slotsProcessed: uint32

    function View(): Watcher
      reads this
    {
      Watcher(tickCount, birth, lastNano, lastSlot, watch, slotsProcessed)
    }

    constructor ()
      ensures View() == UNBORN
    {
      tickCount, birth, lastNano, lastSlot, watch, slotsProcessed := 0, 0, 0, 0, UNSEEN, 0;
    }

    method Tick(now: int64)
      modifies this
      ensures View() == Ticked(CurveWorld(), old(View()), now)
    {
      hide CurveWorld, Seen, SeenRange, PriceAtSlot;
      tickCount := Inc64(tickCount);
      if birth == 0 {
        birth := now;
      }
      lastNano := now;
      var current := SlotAt(birth, now);
      if tickCount == 1 {
        ProcessSlot(0);
        lastSlot := 0;
        return;
      }
      ProcessUpTo(current);
    }

    /** The missed slots, if any, and then the current one. */
    method ProcessUpTo(current: uint64)
      modifies this`watch, this`slotsProcessed, this`lastSlot
      ensures
        var from := FirstUnseen(old(lastSlot), current);
        && watch == Seen(CurveWorld(), SeenRange(CurveWorld(), old(watch), from, current), current)
        && slotsProcessed == (old(slotsProcessed) + (current - from) + 1) % TWO_TO_THE_32
      ensures lastSlot == current
    {
      hide CurveWorld, Seen, PriceAtSlot;
      ghost var from := FirstUnseen(lastSlot, current);
      if current > Inc64(lastSlot) {
        CatchUp(current);
      }
      CountOneMore(old(slotsProcessed), current - from);
      ProcessSlot(current);
      lastSlot := current;
    }

    /** The loop over the missed slots. */
    method CatchUp(current: uint64)
      requires current > Inc64(lastSlot)
      modifies this`watch, this`slotsProcessed
      ensures watch == SeenRange(CurveWorld(), old(watch), Inc64(lastSlot), current)
      ensures slotsProcessed == (old(slotsProcessed) + (current - Inc64(lastSlot))) % TWO_TO_THE_32
    {
      hide CurveWorld, CaughtUp, Seen;
      ghost var w, n := watch, slotsProcessed;
      ghost var from := Inc64(lastSlot);
      CaughtUpStart(w, n, from);
      var slot := Inc64(lastSlot);
      while slot < current
        invariant from <= slot <= current
        invariant CaughtUp(w, n, from, slot, watch, slotsProcessed)
      {
        CaughtUpStep(w, n, from, slot, watch, slotsProcessed);
        ProcessSlot(slot);
        slot := slot + 1;
      }
      CaughtUpMeaning(w, n, from, slot, watch, slotsProcessed);
    }

    method ProcessSlot(slot: uint64)
      modifies this`watch, this`slotsProcessed
      ensures watch == Seen(CurveWorld(), old(watch), slot)
      ensures slotsProcessed == (old(slotsProcessed) + 1) % TWO_TO_THE_32
    {
      var price := ComputePriceAtSlot(slot);
      watch := watch.(latest := price);
      if watch.high == 0 || price > watch.high {
        watch := watch.(high := price);
      }
      if watch.low == 0 || price < watch.low {
        watch := watch.(low := price);
      }
      slotsProcessed := (slotsProcessed + 1) % TWO_TO_THE_32;
      var below := price < THRESHOLD_CENTS;
      if below && watch.firstWarning == 0 {
        watch := watch.(firstWarning := slot);
      }
      watch := watch.(warning := below);
    }

    method Marshal() returns (data: bytes)
      ensures data == Marshalled(View())
    {
      hide U64, I64, U32;
      var enc := new Encoder();
      enc.Uint64(tickCount);
      enc.Int64(birth);
      enc.Int64(lastNano);
      enc.Uint64(lastSlot);
      enc.Uint64(watch.latest);
      ghost var front := enc.buf;
      enc.Uint64(watch.high);
      enc.Uint64(watch.low);
      enc.Uint64(watch.firstWarning);
      enc.Uint32(if watch.warning then 1 else 0);
      enc.Uint32(slotsProcessed);
      data := enc.buf;
      Layout(front, data, View());
    }

    static lemma Layout(front: bytes, data: bytes, w: Watcher)
      requires front == [] + U64(w.tickCount) + I64(w.birth) + I64(w.lastNano) + U64(w.lastSlot) + U64(w.watch.latest)
      requires
        data == front + U64(w.watch.high) + U64(w.watch.low) + U64(w.watch.firstWarning)
                + U32(if w.watch.warning then 1 else 0) + U32(w.slotsProcessed)
      ensures data == Marshalled(w)
    {
      hide U64, I64, U32;
      var t := U64(w.watch.high) + (U64(w.watch.low) + (U64(w.watch.firstWarning)
               + (U32(if w.watch.warning then 1 else 0) + U32(w.slotsProcessed))));
      Behind(front, U64(w.watch.high), U64(w.watch.low), U64(w.watch.firstWarning),
             U32(if w.watch.warning then 1 else 0), U32(w.slotsProcessed));
      Regrouped(U64(w.watch.high), U64(w.watch.low), U64(w.watch.firstWarning),
                U32(if w.watch.warning then 1 else 0), U32(w.slotsProcessed));
      assert data == front + t;
      Behind([], U64(w.tickCount), I64(w.birth), I64(w.lastNano), U64(w.lastSlot), U64(w.watch.latest));
      var head := U64(w.tickCount) + I64(w.birth) + I64(w.lastNano) + U64(w.lastSlot);
      assert data == head + (U64(w.watch.latest) + t);
      Regrouped(U64(w.tickCount), I64(w.birth), I64(w.lastNano), U64(w.lastSlot), U64(w.watch.latest) + t);
    }

    method Unmarshal(data: bytes) returns (ok: bool)
      modifies this
      ensures ok == Unmarshalled(data).Some?
      ensures ok ==> View() == Unmarshalled(data).value
    {
      hide Unmarshalled;
      var w;
      w, ok := ReadAll(data);
      tickCount, birth, lastNano, lastSlot := w.tickCount, w.birth, w.lastNano, w.lastSlot;
      watch, slotsProcessed := w.watch, w.slotsProcessed;
    }

    static method ReadAll(data: bytes) returns (w: Watcher, ok: bool)
      ensures Unmarshalled(data) == if ok then Some(w) else None
    {
      hide ReadWatcher;
      var d := new Decoder(data);
      w := ReadWatcherFrom(d);
      ok := !d.err;
    }

    static method ReadWatcherFrom(d: Decoder) returns (w: Watcher)
      requires d.Valid()
      modifies d
      ensures d.Valid() && (w, d.View()) == ReadWatcher(old(d.View()))
    {
      hide ReadTimes, ReadWatch;
      w := ReadTimesFrom(d);
      var watch := ReadWatchFrom(d);
      var slots := d.Uint32();
      w := w.(watch := watch, slotsProcessed := slots);
    }

    static method ReadTimesFrom(d: Decoder) returns (w: Watcher)
      requires d.Valid()
      modifies d
      ensures d.Valid() && (w, d.View()) == ReadTimes(old(d.View()))
    {
      var tickCount := d.Uint64();
      var birth := d.Int64();
      var lastNano := d.Int64();
      var lastSlot := d.Uint64();
      w := Watcher(tickCount, birth, lastNano, lastSlot, UNSEEN, 0);
    }

    static method ReadWatchFrom(d: Decoder) returns (w: Watch)
      requires d.Valid()
      modifies d
      ensures d.Valid() && (w, d.View()) == ReadWatch(old(d.View()))
    {
      var latest := d.Uint64();
      var high := d.Uint64();
      var low := d.Uint64();
      var firstWarning := d.Uint64();
      var warning := d.Uint32();
      w := Watch(latest, high, low, firstWarning, warning == 1);
    }
  }

  ghost predicate CaughtUp(w0: Watch, n0: uint32, from: nat, slot: uint64, w: Watch, n: uint32)
    requires from <= slot
  {
    w == SeenRange(CurveWorld(), w0, from, slot) && n == (n0 + (slot - from)) % TWO_TO_THE_32
  }

  lemma CaughtUpStart(w: Watch, n: uint32, from: uint64)
    ensures CaughtUp(w, n, from, from, w, n)
  {
  }

  lemma CaughtUpMeaning(w0: Watch, n0: uint32, from: nat, slot: uint64, w: Watch, n: uint32)
    requires from <= slot && CaughtUp(w0, n0, from, slot, w, n)
    ensures w == SeenRange(CurveWorld(), w0, from, slot)
    ensures n == (n0 + (slot - from)) % TWO_TO_THE_32
  {
  }

  lemma CaughtUpStep(w0: Watch, n0: uint32, from: nat, slot: uint64, w: Watch, n: uint32)
    requires from <= slot < TWO_TO_THE_64 - 1 && CaughtUp(w0, n0, from, slot, w, n)
    ensures CaughtUp(w0, n0, from, slot + 1, Seen(CurveWorld(), w, slot), (n + 1) % TWO_TO_THE_32)
  {
    hide CurveWorld, Seen;
    CountOneMore(n0, slot - from);
    SeenRangeStep(CurveWorld(), w0, from, slot);
  }

  lemma SeenRangeStep(p: World, w: Watch, from: nat, slot: uint64)
    requires from <= slot
    ensures SeenRange(p, w, from, slot + 1) == Seen(p, SeenRange(p, w, from, slot), slot)
  {
  }

  lemma CountOneMore(a: nat, k: nat)
    ensures ((a + k) % TWO_TO_THE_32 + 1) % TWO_TO_THE_32 == (a + k + 1) % TWO_TO_THE_32
  {
  }
}
