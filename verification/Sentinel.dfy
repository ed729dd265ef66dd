/** The treasury sentinel (agents/sentinel/main.go): refills behind recorded intents,
    reconciled after a crash, over a treasury that must stay conserved. */
module Sentinels {
  import opened Bytes
  import opened Encoding
  import opened Effects

  const INITIAL_BALANCE: nat := 1_000_000
  const REFILL_THRESHOLD: nat := 300_000
  const REFILL_AMOUNT: nat := 500_000
  const SPEND_MIN: nat := 5_000
  const SPEND_RANGE: nat := 20_000

  /** The agent's fields; `reconciling` is Phase != 0. */
  datatype Treasury = Treasury(
    tickCount: uint64, birth: int64, lastNano: int64,
    balance: uint64, refills: uint32, spent: uint64,
    effects: seq<Intent>, reconciling: bool, rng: uint64)

  const UNBORN := Treasury(0, 0, 0, 0, 0, 0, [], false, 0)

  /** What a tick reads from its host: the clock, a seed, and the 16 bytes of a fresh key. */
  datatype Input = Input(now: int64, seed: uint64, key: bytes)

  function XorShift(x: uint64): uint64 {
    var a := x as bv64;
    var b := a ^ (a << 13);
    var c := b ^ (b >> 7);
    (c ^ (c << 17)) as int
  }

  /** int64 subtraction, then Go's division, which truncates toward zero. */
  function AgeSeconds(birth: int64, now: int64): int64 {
    var d: int := ToSigned((now - birth) % TWO_TO_THE_64);
    if d >= 0 then d / 1_000_000_000 else -((-d) / 1_000_000_000)
  }

  function Started(t: Treasury, i: Input): Treasury {
    var u := t.(tickCount := Inc64(t.tickCount), lastNano := i.now);
    if t.birth == 0 then u.(birth := i.now, balance := INITIAL_BALANCE, rng := i.seed) else u
  }

  function Credited(t: Treasury): Treasury {
    t.(balance := (t.balance + REFILL_AMOUNT) % TWO_TO_THE_64, refills := (t.refills + 1) % TWO_TO_THE_32)
  }

  /** The simulated bridge: an even first key byte means the transfer went through. */
  predicate BridgeCompleted(id: bytes)
    requires id != []
  {
    id[0] % 2 == 0
  }

  function Reconciled(t: Treasury, i: Intent): Treasury
    requires i.id != []
  {
    if BridgeCompleted(i.id) then
      var u := Credited(t);
      u.(effects := Confirmed(u.effects, i.id).0)
    else t.(effects := Compensated(t.effects, i.id).0)
  }

  function ReconciledAll(t: Treasury, todo: seq<Intent>): Treasury
    requires Keyed(todo)
  {
    if todo == [] then t
    else
      var n := |todo| - 1;
      Reconciled(ReconciledAll(t, todo[..n]), todo[n])
  }

  /** The state right after Begin: the intent is in flight and nothing has been credited. */
  function InFlight(t: Treasury, i: Intent): Treasury {
    t.(effects := Begun(t.effects, i.id).0)
  }

  function Executed(t: Treasury, i: Intent): Treasury {
    if Begun(t.effects, i.id).1 != Done then t
    else
      var u := Credited(InFlight(t, i));
      var (log, o) := Confirmed(u.effects, i.id);
      u.(effects := if o == Done then Pruned(log) else log)
  }

  function RefillData(balance: uint64, age: int64): bytes {
    U64(REFILL_AMOUNT) + (U64(balance) + I64(age))
  }

  function Spent(t: Treasury, i: Input): Treasury {
    var r := XorShift(t.rng);
    var want := SPEND_MIN + r % SPEND_RANGE;
    var spend := if want > t.balance then t.balance else want;
    var u := t.(rng := r, balance := t.balance - spend, spent := (t.spent + spend) % TWO_TO_THE_64);
    if u.balance < REFILL_THRESHOLD then
      u.(effects := Recorded(u.effects, i.key, RefillData(u.balance, AgeSeconds(u.birth, i.now))).0)
    else u
  }

  /** The first pending intent that has not been begun. */
  function FirstRecorded(log: seq<Intent>): (r: Option<Intent>)
    ensures r.Some? ==> r.value in log && r.value.state == RECORDED
    ensures r.None? ==> forall x :: x in log ==> x.state != RECORDED
  {
    if log == [] then None
    else if log[0].state == RECORDED then Some(log[0])
    else
      assert log == [log[0]] + log[1..];
      FirstRecorded(log[1..])
  }

  datatype Branch = Reconciles | Executes | Spends

  function BranchOf(t: Treasury): Branch {
    if Selected(t.effects, false) != [] then Reconciles
    else if FirstRecorded(Selected(t.effects, true)).Some? then Executes
    else Spends
  }

  ghost predicate Keyed(log: seq<Intent>) {
    forall k :: 0 <= k < |log| ==> |log[k].id| >= 4
  }

  function Ticked(t: Treasury, i: Input): Treasury
    requires Keyed(t.effects)
  {
    var u := Started(t, i);
    match BranchOf(u)
    case Reconciles =>
      var v := ReconciledAll(u, Selected(u.effects, false));
      v.(effects := Pruned(v.effects), reconciling := false)
    case Executes => Executed(u, FirstRecorded(Selected(u.effects, true)).value)
    case Spends => Spent(u, i)
  }

  /** Whether the refill behind this intent went all the way to its confirmation. */
  predicate Settles(t: Treasury, i: Intent) {
    Begun(t.effects, i.id).1 == Done && Confirmed(InFlight(t, i).effects, i.id).1 == Done
  }

  /** A tick asks for the next one at once after it settled something. */
  predicate AsksForMore(t: Treasury, i: Input)
    requires Keyed(t.effects)
  {
    var u := Started(t, i);
    match BranchOf(u)
    case Reconciles => true
    case Executes => Settles(u, FirstRecorded(Selected(u.effects, true)).value)
    case Spends => false
  }

  // ----- Checkpoints -----

  function TreasuryBytes(t: Treasury): bytes {
    U64(t.tickCount) + (I64(t.birth) + (I64(t.lastNano) + (U64(t.balance) + (U32(t.refills) + (U64(t.spent)
    + (Prefixed(Effects.Marshalled(t.effects)) + (BoolByte(t.reconciling) + U64(t.rng))))))))
  }

  function ReadCounters(r: Reader): (Treasury, Reader) {
    var (tickCount, r1) := r.ReadUint64();
    var (birth, r2) := r1.ReadInt64();
    var (lastNano, r3) := r2.ReadInt64();
    var (balance, r4) := r3.ReadUint64();
    var (refills, r5) := r4.ReadUint32();
    var (spent, r6) := r5.ReadUint64();
    (Treasury(tickCount, birth, lastNano, balance, refills, spent, [], false, 0), r6)
  }

  function ReadRest(t: Treasury, r: Reader): (Treasury, Reader) {
    var (log, r1) := r.ReadBytes();
    var (reconciling, r2) := r1.ReadBool();
    var (rng, r3) := r2.ReadUint64();
    (t.(effects := Unmarshalled(log), reconciling := reconciling, rng := rng), r3)
  }

  function ReadTreasury(r: Reader): (Treasury, Reader) {
    var (t, r1) := ReadCounters(r);
    ReadRest(t, r1)
  }

  function ResumedFrom(data: bytes): Option<Treasury> {
    var (t, r) := ReadTreasury(Reader(data, false));
    if r.failed then None else Some(t)
  }

  lemma CountersWritten(t: Treasury, tail: bytes)
    ensures
      ReadCounters(Reader(U64(t.tickCount) + (I64(t.birth) + (I64(t.lastNano) + (U64(t.balance)
        + (U32(t.refills) + (U64(t.spent) + tail))))), false))
      == (t.(effects := [], reconciling := false, rng := 0), Reader(tail, false))
  {
    hide U64, I64, U32;
    var t5 := U64(t.spent) + tail;
    var t4 := U32(t.refills) + t5;
    var t3 := U64(t.balance) + t4;
    var t2 := I64(t.lastNano) + t3;
    var t1 := I64(t.birth) + t2;
    Uint64Written(t.tickCount, t1);
    Int64Written(t.birth, t2);
    Int64Written(t.lastNano, t3);
    Uint64Written(t.balance, t4);
    Uint32Written(t.refills, t5);
    Uint64Written(t.spent, tail);
  }

  /** A resumed sentinel is the saved one with only the resume rule applied to its log. */
  lemma ResumeAfterMarshal(t: Treasury)
    requires Fits(t.effects) && |Effects.Marshalled(t.effects)| < TWO_TO_THE_32
    ensures ResumedFrom(TreasuryBytes(t)) == Some(t.(effects := ResumedLog(t.effects)))
  {
    hide U64, I64, U32, Effects.Marshalled, Effects.Unmarshalled;
    var log := Effects.Marshalled(t.effects);
    var t8 := U64(t.rng);
    var t7 := BoolByte(t.reconciling) + t8;
    CountersWritten(t, Prefixed(log) + t7);
    BytesWritten(log, t7);
    RestoreAppliesResumeRule(t.effects);
    BoolWritten(t.reconciling, t8);
    assert t8 == U64(t.rng) + [];
    Uint64Written(t.rng, []);
  }

  // ----- Runs with crashes -----

  /** SaveInFlight is a tick that is checkpointed right after its Begin; a Restore
      straight after it is a crash between Begin and Confirm. */
  datatype Event = Tick(i: Input) | SaveInFlight(i: Input) | Save | Restore

  datatype Timeline = Timeline(t: Treasury, saved: Option<bytes>)

  const START := Timeline(UNBORN, None)

  ghost predicate Allowed(s: Timeline, e: Event) {
    match e
    case Tick(i) => AllowedTick(s.t, i)
    case SaveInFlight(i) => AllowedTick(s.t, i) && BranchOf(Started(s.t, i)) == Executes
    case Save => s.t != UNBORN
    case Restore => s.saved.Some? ==> ResumedFrom(s.saved.value).Some?
  }

  /** The first clock reading is not zero, keys are 16 bytes, and the counters do not wrap. */
  ghost predicate AllowedTick(t: Treasury, i: Input) {
    && Keyed(t.effects)
    && (t.birth == 0 ==> i.now != 0) && |i.key| == 16
    && t.refills + 1 < TWO_TO_THE_32 && t.tickCount + 1 < TWO_TO_THE_64
  }

  function Step(s: Timeline, e: Event): Timeline
    requires Allowed(s, e)
  {
    match e
    case Tick(i) => s.(t := Ticked(s.t, i))
    case SaveInFlight(i) =>
      var u := Started(s.t, i);
      var mid := InFlight(u, FirstRecorded(Selected(u.effects, true)).value);
      Timeline(Ticked(s.t, i), Some(TreasuryBytes(mid)))
    case Save => s.(saved := Some(TreasuryBytes(s.t)))
    case Restore => s.(t := if s.saved.None? then UNBORN else ResumedFrom(s.saved.value).value)
  }

  ghost predicate AllowedRun(s: Timeline, es: seq<Event>)
    decreases |es|
  {
    es == [] || (Allowed(s, es[0]) && AllowedRun(Step(s, es[0]), es[1..]))
  }

  function Run(s: Timeline, es: seq<Event>): Timeline
    requires AllowedRun(s, es)
    decreases |es|
  {
    if es == [] then s else Run(Step(s, es[0]), es[1..])
  }

  ghost predicate Conserved(t: Treasury) {
    && t.balance + t.spent == INITIAL_BALANCE + REFILL_AMOUNT * t.refills
    && t.balance <= INITIAL_BALANCE
  }

  /** At most one intent, unsettled, and only while the treasury is low. */
  ghost predicate AtMostOnePending(t: Treasury, inFlight: bool) {
    && |t.effects| <= 1
    && (|t.effects| == 1 ==>
          && (t.effects[0].state == RECORDED || t.effects[0].state == UNRESOLVED
              || (inFlight && t.effects[0].state == IN_FLIGHT))
          && |t.effects[0].id| == 16 && |t.effects[0].data| == 24
          && t.balance < REFILL_THRESHOLD)
  }

  ghost predicate Lawful(t: Treasury, inFlight: bool) {
    t.birth != 0 && Conserved(t) && AtMostOnePending(t, inFlight) && !t.reconciling
  }

  ghost predicate Inv(s: Timeline) {
    && (s.t == UNBORN || Lawful(s.t, false))
    && (s.saved.Some? ==> ResumedFrom(s.saved.value).Some? && Lawful(ResumedFrom(s.saved.value).value, false))
  }

  lemma OneIntent(t: Treasury, inFlight: bool)
    requires AtMostOnePending(t, inFlight)
    ensures Selected(t.effects, true) == t.effects
    ensures Selected(t.effects, false) == if |t.effects| == 1 && t.effects[0].state == UNRESOLVED then t.effects else []
    ensures |t.effects| == 1 ==> Find(t.effects, t.effects[0].id) == Some(0)
  {
    hide Selected, Find;
    if |t.effects| == 1 {
      assert t.effects == [t.effects[0]];
      SelectedOfOne(t.effects[0], true);
      SelectedOfOne(t.effects[0], false);
      FoundFirst(t.effects);
    } else {
      assert t.effects == [];
      SelectedOfNone();
    }
  }

  lemma SelectedOfOne(x: Intent, pending: bool)
    ensures Selected([x], pending) == if (if pending then !Terminal(x.state) else x.state == UNRESOLVED) then [x] else []
  {
    assert [x][..0] == [];
    assert Selected([x], pending) == Selected([], pending) + (if (if pending then !Terminal(x.state) else x.state == UNRESOLVED) then [x] else []);
  }

  lemma SelectedOfNone()
    ensures Selected([], true) == [] && Selected([], false) == []
  {
  }

  lemma FoundFirst(log: seq<Intent>)
    requires log != []
    ensures Find(log, log[0].id) == Some(0)
  {
  }

  lemma PendingIsNotSpending(u: Treasury)
    requires AtMostOnePending(u, false) && |u.effects| == 1
    ensures BranchOf(u) != Spends
  {
    OneIntent(u, false);
    assert u.effects[0] in u.effects;
  }

  lemma SpendsWithNothingPending(u: Treasury)
    requires AtMostOnePending(u, false) && BranchOf(u) == Spends
    ensures u.effects == []
  {
    if |u.effects| == 1 {
      PendingIsNotSpending(u);
    }
  }

  lemma OneMoved(x: Intent, from: set<byte>, to: byte)
    requires x.state in from
    ensures Moved([x], x.id, from, to) == ([x.(state := to)], Done)
  {
    assert [x][0] == x;
    assert Find([x], x.id) == Some(0);
    assert [x][0 := x.(state := to)] == [x.(state := to)];
  }

  lemma PrunedOne(x: Intent)
    requires Terminal(x.state)
    ensures Pruned([x]) == []
  {
    assert [x][..0] == [];
  }

  lemma ReconcileSettles(u: Treasury, x: Intent)
    requires u.effects == [x] && x.state == UNRESOLVED && x.id != []
    ensures
      var v := Reconciled(u, x);
      && Pruned(v.effects) == []
      && (v == Credited(u).(effects := v.effects) || v == u.(effects := v.effects))
  {
    hide Moved, Pruned;
    OneMoved(x, {IN_FLIGHT, UNRESOLVED}, CONFIRMED);
    OneMoved(x, {IN_FLIGHT, UNRESOLVED}, COMPENSATED);
    PrunedOne(x.(state := CONFIRMED));
    PrunedOne(x.(state := COMPENSATED));
  }

  /** An unresolved refill is credited and confirmed if its key's first byte is even, and compensated
      without a credit if it is odd; nothing else changes. */
  lemma ReconcileCreditsIff(t: Treasury, k: nat)
    requires k < |t.effects| && t.effects[k].state == 4 && t.effects[k].id != []
    requires Find(t.effects, t.effects[k].id) == Some(k)
    ensures
      var x := t.effects[k];
      Reconciled(t, x)
      == if x.id[0] % 2 == 0 then
           t.(balance := (t.balance + 500_000) % TWO_TO_THE_64, refills := (t.refills + 1) % TWO_TO_THE_32,
              effects := t.effects[k := Intent(x.id, 3, x.data)])
         else t.(effects := t.effects[k := Intent(x.id, 5, x.data)])
  {
    hide Find, Confirmed, Compensated;
    OperationsSay(t.effects, t.effects[k].id, []);
  }

  lemma ReconcileAllOfOne(u: Treasury, x: Intent)
    requires |x.id| >= 4
    ensures ReconciledAll(u, [x]) == Reconciled(u, x)
  {
    hide Reconciled;
    assert [x][..0] == [];
    assert ReconciledAll(u, []) == u;
  }

  lemma ReconcileKeepsLawful(u: Treasury)
    requires Lawful(u, false) && Selected(u.effects, false) != [] && u.refills + 1 < TWO_TO_THE_32
    ensures Keyed(Selected(u.effects, false))
    ensures
      var v := ReconciledAll(u, Selected(u.effects, false));
      Lawful(v.(effects := Pruned(v.effects), reconciling := false), false)
  {
    hide Reconciled, ReconciledAll, Pruned, Selected, Credited, Conserved;
    OneIntent(u, false);
    var x := u.effects[0];
    assert u.effects == [x];
    ReconcileAllOfOne(u, x);
    ReconcileSettles(u, x);
    CreditKeepsConserved(u);
    ConservedIgnoresLog(u, Reconciled(u, x));
  }

  lemma CreditKeepsConserved(u: Treasury)
    requires Conserved(u) && u.balance < REFILL_THRESHOLD && u.refills + 1 < TWO_TO_THE_32
    ensures Conserved(Credited(u)) && Credited(u).birth == u.birth
  {
  }

  lemma ConservedIgnoresLog(u: Treasury, v: Treasury)
    requires Conserved(u) && Conserved(Credited(u)) && Credited(u).birth == u.birth
    requires v == Credited(u).(effects := v.effects) || v == u.(effects := v.effects)
    ensures Conserved(v.(effects := Pruned(v.effects), reconciling := false)) && v.birth == u.birth
  {
    hide Credited, Pruned;
  }

  lemma ExecuteKeepsLawful(u: Treasury)
    requires Lawful(u, false) && BranchOf(u) == Executes && u.refills + 1 < TWO_TO_THE_32
    ensures
      var x := FirstRecorded(Selected(u.effects, true)).value;
      Lawful(Executed(u, x), false) && Lawful(InFlight(u, x), true)
  {
    hide XorShift;
    OneIntent(u, false);
    var x := u.effects[0];
    hide Moved, Pruned, Selected;
    assert u.effects == [x] && FirstRecorded([x]) == Some(x);
    OneMoved(x, {RECORDED}, IN_FLIGHT);
    OneMoved(x.(state := IN_FLIGHT), {IN_FLIGHT, UNRESOLVED}, CONFIRMED);
    PrunedOne(x.(state := CONFIRMED));
  }

  lemma SpendKeepsLawful(u: Treasury, i: Input)
    requires Lawful(u, false) && u.effects == [] && |i.key| == 16
    ensures Lawful(Spent(u, i), false)
    ensures u.balance >= REFILL_THRESHOLD ==> Spent(u, i).balance <= u.balance - SPEND_MIN
    ensures Spent(u, i).balance < REFILL_THRESHOLD <==> Spent(u, i).effects != []
  {
    hide XorShift, U64, I64;
    var r := XorShift(u.rng);
    var v := Spent(u, i);
    assert u.spent + 25_000 < TWO_TO_THE_64;
    assert Recorded([], i.key, RefillData(v.balance, AgeSeconds(u.birth, i.now))).1 == Done;
  }

  lemma SpendKeepsLow(u: Treasury, i: Input)
    requires u.balance < REFILL_THRESHOLD
    ensures Spent(u, i).balance < REFILL_THRESHOLD
  {
    hide XorShift, U64, I64;
  }

  lemma StartedKeeps(t: Treasury, i: Input)
    requires t.birth != 0
    ensures Started(t, i) == t.(tickCount := Inc64(t.tickCount), lastNano := i.now)
  {
  }

  lemma TickKeepsLawful(t: Treasury, i: Input)
    requires (t == UNBORN || Lawful(t, false)) && AllowedTick(t, i)
    ensures Lawful(Ticked(t, i), false)
    ensures
      BranchOf(Started(t, i)) == Executes ==>
        Lawful(InFlight(Started(t, i), FirstRecorded(Selected(Started(t, i).effects, true)).value), true)
  {
    hide XorShift, Spent, Executed, ReconciledAll;
    var u := Started(t, i);
    assert Lawful(u, false) && u.effects == t.effects && u.refills == t.refills;
    OneIntent(u, false);
    match BranchOf(u) {
      case Reconciles => ReconcileKeepsLawful(u);
      case Executes => ExecuteKeepsLawful(u);
      case Spends =>
        SpendsWithNothingPending(u);
        SpendKeepsLawful(u, i);
    }
  }

  lemma SmallLog(log: seq<Intent>)
    requires |log| <= 1
    requires |log| == 1 ==> |log[0].id| == 16 && |log[0].data| == 24
    ensures Fits(log) && |Effects.Marshalled(log)| <= 53
  {
    if |log| == 1 {
      assert log[1..] == [];
      assert BodyBytes(log) == IntentBytes(log[0]) + BodyBytes([]);
      assert |IntentBytes(log[0])| == 49;
    }
  }

  lemma SavingKeepsLawful(t: Treasury)
    requires Lawful(t, true)
    ensures ResumedFrom(TreasuryBytes(t)).Some? && Lawful(ResumedFrom(TreasuryBytes(t)).value, false)
  {
    hide TreasuryBytes, ResumedFrom, Effects.Marshalled, Fits;
    SmallLog(t.effects);
    ResumeAfterMarshal(t);
  }

  lemma StepKeepsInv(s: Timeline, e: Event)
    requires Inv(s) && Allowed(s, e)
    ensures Inv(Step(s, e))
    ensures e.Tick? || e.SaveInFlight? ==> Step(s, e).t != UNBORN
  {
    hide Ticked, TreasuryBytes, ResumedFrom;
    match e {
      case Tick(i) => TickKeepsLawful(s.t, i);
      case SaveInFlight(i) =>
        TickKeepsLawful(s.t, i);
        var u := Started(s.t, i);
        SavingKeepsLawful(InFlight(u, FirstRecorded(Selected(u.effects, true)).value));
      case Save => SavingKeepsLawful(s.t);
      case Restore =>
    }
  }

  lemma {:induction false} RunKeepsInv(s: Timeline, es: seq<Event>)
    requires Inv(s) && AllowedRun(s, es)
    ensures Inv(Run(s, es))
    decreases |es|
  {
    if es != [] {
      StepKeepsInv(s, es[0]);
      RunKeepsInv(Step(s, es[0]), es[1..]);
    }
  }

  /** In every state after the first tick, whatever crashed and wherever it was restored:
      no money appears or vanishes, the balance stays bounded, and at most one refill is open. */
  lemma TreasuryIsConserved(es: seq<Event>)
    requires AllowedRun(START, es)
    ensures
      var t := Run(START, es).t;
      t != UNBORN ==> Conserved(t) && |t.effects| <= 1
  {
    RunKeepsInv(START, es);
  }

  /** The clock condition is needed and exact: the first two ticks conserve the treasury
      just when the first clock reading is not zero. */
  lemma ZeroClockBreaksConservation(i: Input, j: Input)
    requires |i.key| == 16 && |j.key| == 16
    ensures Keyed(Ticked(UNBORN, i).effects)
    ensures Conserved(Ticked(Ticked(UNBORN, i), j)) <==> i.now != 0
  {
    hide XorShift, U64, I64;
    var u := Started(UNBORN, i);
    var t := Ticked(UNBORN, i);
    var v := Started(t, j);
    assert Selected([], false) == [] && Selected([], true) == [];
    assert t == Spent(u, i) && t.effects == [] && 5_000 <= t.spent < 25_000;
    assert Ticked(t, j) == Spent(v, j);
  }

  // ----- What a tick does -----

  /** The generator's first value after 1. */
  lemma XorShiftSays()
    ensures XorShift(1) == 1_082_269_761
  {
    var a: bv64 := 1;
    var b := a ^ (a << 13);
    assert b == 8_193;
    var c := b ^ (b >> 7);
    assert c == 8_257;
    assert c ^ (c << 17) == 1_082_269_761;
  }

  /** The first tick after birth starts with a full treasury, and spends. */
  lemma FirstTickSays(i: Input)
    requires |i.key| == 16
    ensures
      var v := Ticked(UNBORN, i);
      && v.tickCount == 1 && v.birth == i.now && v.lastNano == i.now && v.refills == 0 && v.effects == []
      && v.spent == 5_000 + XorShift(i.seed) % 20_000 && v.balance + v.spent == 1_000_000
      && v.rng == XorShift(i.seed) && !AsksForMore(UNBORN, i)
  {
    hide XorShift, U64, I64;
    SelectedOfNone();
  }

  /** What a later tick does, by the one intent that may be in the log: with none it spends between
      5,000 and 24,999 (or what is left) and records a refill when that leaves less than 300,000; a
      recorded one is executed and credited; an unresolved one is credited if and only if its key's
      first byte is even. Only a tick that settled an intent asks for the next one at once. */
  lemma TickSays(t: Treasury, i: Input)
    requires Lawful(t, false) && AllowedTick(t, i)
    ensures
      var v := Ticked(t, i);
      && v.tickCount == t.tickCount + 1 && v.birth == t.birth && v.lastNano == i.now
      && (AsksForMore(t, i) <==> t.effects != [])
      && (if t.effects == [] then
            var want := 5_000 + XorShift(t.rng) % 20_000;
            var spend := if want > t.balance then t.balance else want;
            && v.balance == t.balance - spend && v.spent == t.spent + spend && v.refills == t.refills
            && v.rng == XorShift(t.rng)
            && v.effects == (if v.balance < 300_000
                             then [Intent(i.key, 1, U64(500_000) + U64(v.balance) + I64(AgeSeconds(t.birth, i.now)))] else [])
          else
            var x := t.effects[0];
            var credited := x.state == 1 || x.id[0] % 2 == 0;
            && v.effects == [] && v.spent == t.spent && v.rng == t.rng
            && v.balance == t.balance + (if credited then 500_000 else 0)
            && v.refills == t.refills + (if credited then 1 else 0))
  {
    hide XorShift, Spent, Executed, ReconciledAll, Settles, Lawful, U64, I64, AgeSeconds, Pruned, Selected, FirstRecorded, BranchOf;
    var u := Started(t, i);
    SameTreasury(t, i);
    OneIntent(u, false);
    match BranchOf(u) {
      case Reconciles => ReconcileSays(u);
      case Executes => ExecuteSays(u);
      case Spends =>
        SpendsWithNothingPending(u);
        SpendSays(u, i);
    }
  }

  lemma SameTreasury(t: Treasury, i: Input)
    requires Lawful(t, false)
    ensures
      var u := Started(t, i);
      && u == t.(tickCount := Inc64(t.tickCount), lastNano := i.now) && Lawful(u, false) && AtMostOnePending(u, false)
      && Conserved(u)
  {
  }

  lemma SpendSays(u: Treasury, i: Input)
    requires Lawful(u, false) && u.effects == []
    ensures
      var v := Spent(u, i);
      var want := 5_000 + XorShift(u.rng) % 20_000;
      var spend := if want > u.balance then u.balance else want;
      && v.balance == u.balance - spend && v.spent == u.spent + spend && v.rng == XorShift(u.rng)
      && v == u.(balance := v.balance, spent := v.spent, rng := v.rng, effects := v.effects)
      && v.effects == (if v.balance < 300_000
                       then [Intent(i.key, 1, U64(500_000) + U64(v.balance) + I64(AgeSeconds(u.birth, i.now)))] else [])
  {
    hide XorShift, U64, I64;
    var v := Spent(u, i);
    assert u.spent + 25_000 < TWO_TO_THE_64;
    assert Recorded([], i.key, RefillData(v.balance, AgeSeconds(u.birth, i.now))).1 == Done;
    assert RefillData(v.balance, AgeSeconds(u.birth, i.now)) == U64(500_000) + U64(v.balance) + I64(AgeSeconds(u.birth, i.now));
  }

  lemma ExecuteSays(u: Treasury)
    requires Lawful(u, false) && BranchOf(u) == Executes && u.refills + 1 < TWO_TO_THE_32
    ensures u.effects != [] && u.effects[0].state == 1 && FirstRecorded(Selected(u.effects, true)) == Some(u.effects[0])
    ensures Settles(u, u.effects[0])
    ensures
      Executed(u, u.effects[0])
      == u.(balance := u.balance + 500_000, refills := u.refills + 1, effects := [])
  {
    OneIntent(u, false);
    var x := u.effects[0];
    hide Moved, Pruned, Selected;
    assert u.effects == [x] && FirstRecorded([x]) == Some(x);
    OneMoved(x, {RECORDED}, IN_FLIGHT);
    OneMoved(x.(state := IN_FLIGHT), {IN_FLIGHT, UNRESOLVED}, CONFIRMED);
    PrunedOne(x.(state := CONFIRMED));
  }

  /** v is u with its intent settled and, if it was credited, one more refill. */
  ghost predicate SettledBy(u: Treasury, v: Treasury, credited: bool) {
    && Pruned(v.effects) == [] && v == u.(balance := v.balance, refills := v.refills, effects := v.effects)
    && v.balance == u.balance + (if credited then 500_000 else 0) && v.refills == u.refills + (if credited then 1 else 0)
  }

  lemma ReconcileSays(u: Treasury)
    requires Lawful(u, false) && BranchOf(u) == Reconciles && u.refills + 1 < TWO_TO_THE_32
    ensures u.effects != [] && u.effects[0].state == 4 && u.effects[0].id != []
    ensures Keyed(Selected(u.effects, false)) && Selected(u.effects, false) == u.effects
    ensures SettledBy(u, ReconciledAll(u, u.effects), u.effects[0].id[0] % 2 == 0)
  {
    hide Selected, FirstRecorded, Reconciled, ReconciledAll, Pruned, Find;
    OneIntent(u, false);
    assert u.effects == [u.effects[0]];
    ReconcileAllOfOne(u, u.effects[0]);
    ReconcileOne(u, u.effects[0]);
  }

  lemma ReconcileOne(u: Treasury, x: Intent)
    requires u.effects == [x] && x.state == 4 && x.id != [] && Find(u.effects, x.id) == Some(0)
    requires u.balance + 500_000 < TWO_TO_THE_64 && u.refills + 1 < TWO_TO_THE_32 && !u.reconciling
    ensures SettledBy(u, Reconciled(u, x), x.id[0] % 2 == 0)
  {
    hide Reconciled, Pruned, Find;
    ReconcileCreditsIff(u, 0);
    PrunedOne(Intent(x.id, 3, x.data));
    PrunedOne(Intent(x.id, 5, x.data));
    assert [x][0 := Intent(x.id, 3, x.data)] == [Intent(x.id, 3, x.data)];
    assert [x][0 := Intent(x.id, 5, x.data)] == [Intent(x.id, 5, x.data)];
  }

  /** Whole seconds since birth. */
  lemma AgeSays(birth: int64, now: int64)
    requires 0 <= now - birth <= MAX_INT64
    ensures AgeSeconds(birth, now) * 1_000_000_000 <= now - birth < (AgeSeconds(birth, now) + 1) * 1_000_000_000
  {
    assert (now - birth) % TWO_TO_THE_64 == now - birth;
  }

  /** The saved fields by position. */
  lemma LayoutSays(t: Treasury)
    ensures
      var b, log := TreasuryBytes(t), Effects.Marshalled(t.effects);
      && |b| == 57 + |log|
      && b[..8] == U64(t.tickCount) && b[8..16] == I64(t.birth) && b[16..24] == I64(t.lastNano)
      && b[24..32] == U64(t.balance) && b[32..36] == U32(t.refills) && b[36..44] == U64(t.spent)
      && b[44..48] == U32(|log| % TWO_TO_THE_32) && b[48..48 + |log|] == log
      && b[48 + |log|] == (if t.reconciling then 1 else 0) && b[49 + |log|..] == U64(t.rng)
  {
    hide U64, I64, U32, Effects.Marshalled;
    var log := Effects.Marshalled(t.effects);
    var tail := Prefixed(log) + (BoolByte(t.reconciling) + U64(t.rng));
    CountersAt(t, tail);
    TailAt(log, BoolByte(t.reconciling), U64(t.rng));
    assert TreasuryBytes(t)[44..] == tail;
  }

  lemma CountersAt(t: Treasury, tail: bytes)
    ensures
      var b := U64(t.tickCount) + (I64(t.birth) + (I64(t.lastNano) + (U64(t.balance) + (U32(t.refills) + (U64(t.spent) + tail)))));
      && |b| == 44 + |tail| && b[44..] == tail
      && b[..8] == U64(t.tickCount) && b[8..16] == I64(t.birth) && b[16..24] == I64(t.lastNano)
      && b[24..32] == U64(t.balance) && b[32..36] == U32(t.refills) && b[36..44] == U64(t.spent)
  {
    hide U64, I64, U32;
  }

  lemma TailAt(log: bytes, flag: bytes, rng: bytes)
    requires |flag| == 1 && |rng| == 8
    ensures
      var b := Prefixed(log) + (flag + rng);
      && |b| == 13 + |log| && b[..4] == U32(|log| % TWO_TO_THE_32) && b[4..4 + |log|] == log
      && b[4 + |log|] == flag[0] && b[5 + |log|..] == rng
  {
    hide U32;
  }

  // ----- How long a low treasury can go unnoticed -----

  function TickedAll(t: Treasury, inputs: seq<Input>): Treasury
    requires OnlySpends(t, inputs)
    decreases |inputs|
  {
    if inputs == [] then t else TickedAll(Ticked(t, inputs[0]), inputs[1..])
  }

  /** Every tick spends and none of them records a refill. */
  ghost predicate OnlySpends(t: Treasury, inputs: seq<Input>)
    decreases |inputs|
  {
    inputs == [] ||
    (AllowedTick(t, inputs[0]) && BranchOf(Started(t, inputs[0])) == Spends && Ticked(t, inputs[0]).effects == []
     && OnlySpends(Ticked(t, inputs[0]), inputs[1..]))
  }

  lemma {:induction false} SpendingLowersBalance(t: Treasury, inputs: seq<Input>)
    requires Lawful(t, false) && t.effects == [] && t.balance >= REFILL_THRESHOLD && OnlySpends(t, inputs)
    ensures SPEND_MIN * |inputs| <= t.balance - REFILL_THRESHOLD
    decreases |inputs|
  {
    if inputs != [] {
      var u, v := Started(t, inputs[0]), Ticked(t, inputs[0]);
      assert v == Spent(u, inputs[0]);
      SpendKeepsLawful(u, inputs[0]);
      SpendingLowersBalance(v, inputs[1..]);
    }
  }

  /** Of any 141 consecutive spending ticks, at least one records a refill. */
  lemma RefillWithin141Spends(es: seq<Event>, inputs: seq<Input>)
    requires AllowedRun(START, es) && Run(START, es).t != UNBORN
    requires OnlySpends(Run(START, es).t, inputs)
    ensures |inputs| < 141
  {
    hide XorShift, Spent, Started;
    RunKeepsInv(START, es);
    var t := Run(START, es).t;
    if inputs != [] {
      var u, v := Started(t, inputs[0]), Ticked(t, inputs[0]);
      StartedKeeps(t, inputs[0]);
      SpendsWithNothingPending(u);
      assert v == Spent(u, inputs[0]);
      SpendKeepsLawful(u, inputs[0]);
      if t.balance >= REFILL_THRESHOLD {
        SpendingLowersBalance(t, inputs);
      } else {
        SpendKeepsLow(u, inputs[0]);
      }
    }
  }

  // ----- The class -----

  class Sentinel {
    var tickCount: uint64
    var birth: int64
    var lastNano: int64
    var balance: uint64
    var refills: uint32
    var spent: uint64
    const effects: EffectLog
    var reconciling: bool
    var rngState: uint64

    function View(): Treasury
      reads this, effects
    {
      Treasury(tickCount, birth, lastNano, balance, refills, spent, effects.intents, reconciling, rngState)
    }

    constructor ()
      ensures View() == UNBORN && fresh(effects)
    {
      tickCount, birth, lastNano, balance, refills, spent := 0, 0, 0, 0, 0, 0;
      reconciling, rngState := false, 0;
      effects := new EffectLog();
    }

    method Tick(i: Input) returns (more: bool)
      requires Keyed(effects.intents)
      modifies this, effects
      ensures View() == Ticked(old(View()), i)
      ensures more == AsksForMore(old(View()), i)
    {
      hide XorShift, Spent, Executed, Reconciled;
      tickCount := Inc64(tickCount);
      if birth == 0 {
        birth := i.now;
        balance := INITIAL_BALANCE;
        rngState := i.seed;
      }
      lastNano := i.now;
      ghost var u := View();
      assert u == Started(old(View()), i);
      var unresolved := effects.UnresolvedIntents();
      if |unresolved| > 0 {
        reconciling := true;
        ReconcileAll(unresolved, u);
        var n := effects.Prune();
        reconciling := false;
        return true;
      }
      var pending := effects.Pending();
      var next := FindRecorded(pending);
      if next.Some? {
        more := ExecuteRefill(next.value);
      } else {
        more := Spend(i);
      }
    }

    /** The loop over the pending intents, up to the first one not begun yet. */
    static method FindRecorded(pending: seq<Intent>) returns (r: Option<Intent>)
      ensures r == FirstRecorded(pending)
    {
      for k := 0 to |pending|
        invariant FirstRecorded(pending) == FirstRecorded(pending[k..])
      {
        if pending[k].state == RECORDED {
          return Some(pending[k]);
        }
        assert pending[k..][1..] == pending[k + 1..];
      }
      r := None;
    }

    method ReconcileAll(todo: seq<Intent>, ghost u: Treasury)
      requires Keyed(todo) && reconciling && View() == u.(reconciling := true)
      modifies this, effects
      ensures reconciling
      ensures View().(reconciling := false) == ReconciledAll(u, todo).(reconciling := false)
    {
      ghost var v := View();
      for k := 0 to |todo|
        invariant reconciling
        invariant View() == ReconciledAll(v, todo[..k])
      {
        assert todo[..k + 1][..k] == todo[..k];
        Reconcile(todo[k]);
      }
      assert todo[..|todo|] == todo;
      PhaseIsIndependent(u, todo);
    }

    method Reconcile(i: Intent)
      requires |i.id| >= 4
      modifies this, effects
      ensures View() == Reconciled(old(View()), i)
    {
      if i.id[0] % 2 == 0 {
        balance := (balance + REFILL_AMOUNT) % TWO_TO_THE_64;
        refills := (refills + 1) % TWO_TO_THE_32;
        var o := effects.Confirm(i.id);
      } else {
        var o := effects.Compensate(i.id);
      }
    }

    method ExecuteRefill(i: Intent) returns (more: bool)
      modifies this, effects
      ensures View() == Executed(old(View()), i)
      ensures more == Settles(old(View()), i)
    {
      hide Begun, Confirmed, Pruned;
      var o := effects.Begin(i.id);
      if o != Done {
        return false;
      }
      balance := (balance + REFILL_AMOUNT) % TWO_TO_THE_64;
      refills := (refills + 1) % TWO_TO_THE_32;
      o := effects.Confirm(i.id);
      if o != Done {
        return false;
      }
      var n := effects.Prune();
      more := true;
    }

    method Spend(i: Input) returns (more: bool)
      modifies this, effects
      ensures View() == Spent(old(View()), i)
      ensures !more
    {
      hide XorShift, RefillData, AgeSeconds, Recorded;
      rngState := XorShift(rngState);
      var spend := SPEND_MIN + rngState % SPEND_RANGE;
      if spend > balance {
        spend := balance;
      }
      balance := balance - spend;
      spent := (spent + spend) % TWO_TO_THE_64;
      if balance < REFILL_THRESHOLD {
        RecordRefillIntent(i);
      }
      more := false;
    }

    method RecordRefillIntent(i: Input)
      modifies effects
      ensures effects.intents == Recorded(old(effects.intents), i.key, RefillData(balance, AgeSeconds(birth, i.now))).0
    {
      hide U64, I64, AgeSeconds;
      var enc := new Encoder();
      enc.Uint64(REFILL_AMOUNT);
      enc.Uint64(balance);
      enc.Int64(AgeSeconds(birth, i.now));
      assert enc.buf == RefillData(balance, AgeSeconds(birth, i.now));
      var o := effects.Record(i.key, enc.buf);
    }

    method Marshal() returns (data: bytes)
      ensures data == TreasuryBytes(View())
    {
      hide U64, I64, U32, Prefixed, BoolByte;
      var log := effects.Marshal();
      var enc := new Encoder();
      enc.Uint64(tickCount);
      enc.Int64(birth);
      enc.Int64(lastNano);
      enc.Uint64(balance);
      ghost var front := enc.buf;
      enc.Uint32(refills);
      enc.Uint64(spent);
      enc.Bytes(log);
      enc.Bool(reconciling);
      enc.Uint64(rngState);
      data := enc.buf;
      Layout(front, data, View(), log);
    }

    static lemma Layout(front: bytes, data: bytes, t: Treasury, log: bytes)
      requires log == Effects.Marshalled(t.effects)
      requires front == [] + U64(t.tickCount) + I64(t.birth) + I64(t.lastNano) + U64(t.balance)
      requires data == front + U32(t.refills) + U64(t.spent) + Prefixed(log) + BoolByte(t.reconciling) + U64(t.rng)
      ensures data == TreasuryBytes(t)
    {
      hide U64, I64, U32, Prefixed, BoolByte, Effects.Marshalled;
      Behind(front, U32(t.refills), U64(t.spent), Prefixed(log), BoolByte(t.reconciling), U64(t.rng));
      Regrouped(U32(t.refills), U64(t.spent), Prefixed(log), BoolByte(t.reconciling), U64(t.rng));
      var tail := U32(t.refills) + (U64(t.spent) + (Prefixed(log) + (BoolByte(t.reconciling) + U64(t.rng))));
      assert data == U64(t.tickCount) + I64(t.birth) + I64(t.lastNano) + U64(t.balance) + tail;
      Regrouped(U64(t.tickCount), I64(t.birth), I64(t.lastNano), U64(t.balance), tail);
    }

    /** Onto a fresh agent, as a resume does: the phase is only ever set, never cleared. */
    method Unmarshal(data: bytes) returns (ok: bool)
      requires !reconciling
      modifies this, effects
      ensures ok == ResumedFrom(data).Some?
      ensures ok ==> View() == ResumedFrom(data).value
    {
      hide ReadCounters, ReadRest;
      var d := new Decoder(data);
      ReadCountersFrom(d);
      ReadRestFrom(d, Treasury(tickCount, birth, lastNano, balance, refills, spent, [], false, 0));
      ok := !d.err;
    }

    method ReadRestFrom(d: Decoder, ghost t: Treasury)
      requires d.Valid() && !reconciling
      requires t == Treasury(tickCount, birth, lastNano, balance, refills, spent, [], false, 0)
      modifies d, this`reconciling, this`rngState, effects
      ensures d.Valid() && (View(), d.View()) == ReadRest(t, old(d.View()))
    {
      hide Unmarshalled, Reader.ReadUint64, Reader.ReadBytes, Reader.ReadBool;
      var log := d.Bytes();
      effects.Unmarshal(log);
      var phase := d.Bool();
      if phase {
        reconciling := true;
      }
      rngState := d.Uint64();
    }

    method ReadCountersFrom(d: Decoder)
      requires d.Valid()
      modifies d, this`tickCount, this`birth, this`lastNano, this`balance, this`refills, this`spent
      ensures d.Valid()
      ensures
        (Treasury(tickCount, birth, lastNano, balance, refills, spent, [], false, 0), d.View())
        == ReadCounters(old(d.View()))
    {
      hide Reader.ReadUint64, Reader.ReadInt64, Reader.ReadUint32;
      tickCount := d.Uint64();
      birth := d.Int64();
      lastNano := d.Int64();
      balance := d.Uint64();
      refills := d.Uint32();
      spent := d.Uint64();
    }
  }

  lemma {:induction false} PhaseIsIndependent(u: Treasury, todo: seq<Intent>)
    requires Keyed(todo)
    ensures
      ReconciledAll(u.(reconciling := true), todo).(reconciling := false)
      == ReconciledAll(u, todo).(reconciling := false)
  {
    hide Moved;
    if todo != [] {
      PhaseIsIndependent(u, todo[..|todo| - 1]);
    }
  }
}
