/** The SDK's effect log (sdk/igor/effects.go): intents, their state machine, and a
    serialization whose inverse turns every InFlight intent into an Unresolved one. */
module Effects {
  import opened Bytes
  import opened Encoding

  const RECORDED: byte := 1
  const IN_FLIGHT: byte := 2
  const CONFIRMED: byte := 3
  const UNRESOLVED: byte := 4
  const COMPENSATED: byte := 5

  datatype Intent = Intent(id: bytes, state: byte, data: bytes)

  datatype Outcome = Done | AlreadyExists | NotFound | InvalidTransition

  predicate Terminal(state: byte) { state == CONFIRMED || state == COMPENSATED }

  // ----- The log as a value -----

  function Find(log: seq<Intent>, id: bytes): (r: Option<nat>)
    ensures r.None? <==> forall k :: 0 <= k < |log| ==> log[k].id != id
    ensures r.Some? ==> r.value < |log| && log[r.value].id == id
    ensures r.Some? ==> forall k :: 0 <= k < r.value ==> log[k].id != id
  {
    FindFrom(log, id, 0)
  }

  function FindFrom(log: seq<Intent>, id: bytes, from: nat): (r: Option<nat>)
    requires from <= |log|
    ensures r.None? <==> forall k :: from <= k < |log| ==> log[k].id != id
    ensures r.Some? ==> from <= r.value < |log| && log[r.value].id == id
    ensures r.Some? ==> forall k :: from <= k < r.value ==> log[k].id != id
    decreases |log| - from
  {
    if from == |log| then None
    else if log[from].id == id then Some(from)
    else FindFrom(log, id, from + 1)
  }

  function Recorded(log: seq<Intent>, id: bytes, data: bytes): (seq<Intent>, Outcome) {
    if Find(log, id).Some? then (log, AlreadyExists)
    else (log + [Intent(id, RECORDED, data)], Done)
  }

  /** A refused transition changes nothing. */
  function Moved(log: seq<Intent>, id: bytes, from: set<byte>, to: byte): (r: (seq<Intent>, Outcome))
    ensures r.1 != Done ==> r.0 == log
  {
    match Find(log, id)
    case None => (log, NotFound)
    case Some(k) =>
      if log[k].state in from then (log[k := log[k].(state := to)], Done)
      else (log, InvalidTransition)
  }

  function Begun(log: seq<Intent>, id: bytes): (r: (seq<Intent>, Outcome))
    ensures r.1 != Done ==> r.0 == log
  {
    Moved(log, id, {RECORDED}, IN_FLIGHT)
  }

  function Confirmed(log: seq<Intent>, id: bytes): (r: (seq<Intent>, Outcome))
    ensures r.1 != Done ==> r.0 == log
  {
    Moved(log, id, {IN_FLIGHT, UNRESOLVED}, CONFIRMED)
  }

  /** What was just begun can be settled, either way. */
  lemma BegunCanSettle(log: seq<Intent>, id: bytes)
    requires Begun(log, id).1 == Done
    ensures Confirmed(Begun(log, id).0, id).1 == Done && Compensated(Begun(log, id).0, id).1 == Done
  {
    var k, next := Find(log, id).value, Begun(log, id).0;
    assert forall j :: 0 <= j < |log| ==> next[j].id == log[j].id;
    assert Find(next, id) == Some(k);
  }

  function Compensated(log: seq<Intent>, id: bytes): (r: (seq<Intent>, Outcome))
    ensures r.1 != Done ==> r.0 == log
  {
    Moved(log, id, {IN_FLIGHT, UNRESOLVED}, COMPENSATED)
  }

  function Pruned(log: seq<Intent>): (r: seq<Intent>)
    ensures forall x :: x in r <==> x in log && !Terminal(x.state)
  {
    if log == [] then []
    else
      var n := |log| - 1;
      assert log == log[..n] + [log[n]];
      if Terminal(log[n].state) then Pruned(log[..n]) else Pruned(log[..n]) + [log[n]]
  }

  function Resumed(state: byte): byte {
    if state == IN_FLIGHT then UNRESOLVED else state
  }

  /** The log with the resume rule applied to every intent and nothing else changed. */
  function ResumedLog(log: seq<Intent>): (r: seq<Intent>)
    ensures |r| == |log|
    ensures forall k :: 0 <= k < |log| ==> r[k] == log[k].(state := Resumed(log[k].state))
  {
    seq(|log|, k requires 0 <= k < |log| => log[k].(state := Resumed(log[k].state)))
  }

  // ----- Serialization -----

  function IntentBytes(i: Intent): bytes { [i.state] + (Prefixed(i.id) + Prefixed(i.data)) }

  function BodyBytes(log: seq<Intent>): bytes {
    if log == [] then [] else IntentBytes(log[0]) + BodyBytes(log[1..])
  }

  function Marshalled(log: seq<Intent>): bytes {
    U32(|log| % TWO_TO_THE_32) + BodyBytes(log)
  }

  /** One intent off the wire, under the resume rule; a short read leaves empty fields. */
  function NextIntent(r: Reader): (Intent, Reader)
    requires r.rest != []
  {
    var (id, r1) := Reader(r.rest[1..], false).ReadBytes();
    var (data, r2) := r1.ReadBytes();
    (Intent(id, Resumed(r.rest[0]), data), r2)
  }

  function ReadIntents(r: Reader, count: nat): seq<Intent>
    decreases count
  {
    if count == 0 || r.failed || r.rest == [] then []
    else
      var (i, next) := NextIntent(r);
      [i] + ReadIntents(next, count - 1)
  }

  function Unmarshalled(data: bytes): seq<Intent> {
    if data == [] then []
    else
      var (count, r) := Reader(data, false).ReadUint32();
      if r.failed then [] else ReadIntents(r, count)
  }

  ghost predicate Fits(log: seq<Intent>) {
    && |log| < TWO_TO_THE_32
    && forall k :: 0 <= k < |log| ==> |log[k].id| < TWO_TO_THE_32 && |log[k].data| < TWO_TO_THE_32
  }

  lemma {:induction false} ReadBody(log: seq<Intent>, tail: bytes)
    requires Fits(log)
    ensures ReadIntents(Reader(BodyBytes(log) + tail, false), |log|) == ResumedLog(log)
  {
    if log != [] {
      var i, rest := log[0], log[1..];
      var after := BodyBytes(rest) + tail;
      assert BodyBytes(log) + tail == [i.state] + (Prefixed(i.id) + (Prefixed(i.data) + after));
      BytesWritten(i.id, Prefixed(i.data) + after);
      BytesWritten(i.data, after);
      ReadBody(rest, tail);
      assert ResumedLog(log) == [i.(state := Resumed(i.state))] + ResumedLog(rest);
    }
  }

  lemma BodyStep(before: bytes, log: seq<Intent>, k: nat)
    requires k < |log|
    ensures before + BodyBytes(log[k..]) == (before + IntentBytes(log[k])) + BodyBytes(log[k + 1..])
  {
    assert log[k..][1..] == log[k + 1..];
  }

  lemma ReadEnd(r: Reader, count: nat)
    requires r.failed || r.rest == []
    ensures ReadIntents(r, count) == []
  {
  }

  lemma ReadStep(list: seq<Intent>, r: Reader, count: nat)
    requires count > 0 && !r.failed && r.rest != []
    ensures
      var (i, next) := NextIntent(r);
      list + ReadIntents(r, count) == (list + [i]) + ReadIntents(next, count - 1)
  {
  }

  /** Restoring a saved log returns it with only the resume rule applied. */
  lemma RestoreAppliesResumeRule(log: seq<Intent>)
    requires Fits(log)
    ensures Unmarshalled(Marshalled(log)) == ResumedLog(log)
  {
    hide NextIntent, ResumedLog, ReadIntents, BodyBytes, U32, Reader.ReadUint32;
    var data := Marshalled(log);
    assert |data| >= 4;
    Uint32Written(|log|, BodyBytes(log));
    ReadBody(log, []);
    assert BodyBytes(log) + [] == BodyBytes(log);
  }

  /** What each operation does to the first intent with the ID, by the numbers that are stored:
      1 Recorded, 2 InFlight, 3 Confirmed, 4 Unresolved, 5 Compensated. */
  lemma OperationsSay(log: seq<Intent>, id: bytes, data: bytes)
    ensures
      var k := Find(log, id);
      if k.None? then
        && Recorded(log, id, data) == (log + [Intent(id, 1, data)], Done)
        && Begun(log, id) == (log, NotFound) && Confirmed(log, id) == (log, NotFound) && Compensated(log, id) == (log, NotFound)
      else
        var x := log[k.value];
        var open := x.state == 2 || x.state == 4;
        && Recorded(log, id, data) == (log, AlreadyExists)
        && Begun(log, id) == (if x.state == 1 then (log[k.value := Intent(id, 2, x.data)], Done) else (log, InvalidTransition))
        && Confirmed(log, id) == (if open then (log[k.value := Intent(id, 3, x.data)], Done) else (log, InvalidTransition))
        && Compensated(log, id) == (if open then (log[k.value := Intent(id, 5, x.data)], Done) else (log, InvalidTransition))
  {
    hide Find;
  }

  /** Pruning keeps what is not settled, in order. */
  lemma {:induction false} PruneSays(a: seq<Intent>, b: seq<Intent>)
    ensures Pruned(a + b) == Pruned(a) + Pruned(b)
    decreases |b|
  {
    hide Pruned;
    PruneStep([], Intent([], 3, []));
    if b == [] {
      assert a + b == a;
    } else {
      var n := |b| - 1;
      PruneSays(a, b[..n]);
      assert b == b[..n] + [b[n]];
      PruneOneMore(a, b[..n], b[n]);
    }
  }

  lemma PruneOneMore(a: seq<Intent>, b: seq<Intent>, x: Intent)
    requires Pruned(a + b) == Pruned(a) + Pruned(b)
    ensures Pruned(a + (b + [x])) == Pruned(a) + Pruned(b + [x])
  {
    hide Pruned;
    PruneStep(a + b, x);
    PruneStep(b, x);
    assert a + (b + [x]) == (a + b) + [x];
  }

  lemma PruneStep(log: seq<Intent>, x: Intent)
    ensures Pruned([]) == []
    ensures Pruned(log + [x]) == if x.state == 3 || x.state == 5 then Pruned(log) else Pruned(log) + [x]
  {
    assert (log + [x])[..|log|] == log;
  }

  /** An intent that was in flight is restored as unresolved; every other one as it was. */
  lemma RestoreSays(log: seq<Intent>, k: nat)
    requires Fits(log) && k < |log|
    ensures |Unmarshalled(Marshalled(log))| == |log|
    ensures
      Unmarshalled(Marshalled(log))[k] == Intent(log[k].id, if log[k].state == 2 then 4 else log[k].state, log[k].data)
  {
    hide Marshalled, Unmarshalled;
    RestoreAppliesResumeRule(log);
  }

  /** The bytes of a log: a count, and behind the intents before it each one's state, ID and data. */
  lemma LayoutSays(log: seq<Intent>, x: Intent)
    ensures Marshalled(log)[..4] == U32(|log| % TWO_TO_THE_32)
    ensures
      Marshalled(log + [x])[4..]
      == Marshalled(log)[4..] + ([x.state] + U32(|x.id| % TWO_TO_THE_32) + x.id + U32(|x.data| % TWO_TO_THE_32) + x.data)
  {
    hide U32;
    BodyAppended(log, x);
  }

  lemma {:induction false} BodyAppended(log: seq<Intent>, x: Intent)
    ensures
      BodyBytes(log + [x])
      == BodyBytes(log) + ([x.state] + U32(|x.id| % TWO_TO_THE_32) + x.id + U32(|x.data| % TWO_TO_THE_32) + x.data)
  {
    hide U32;
    if log == [] {
      assert [] + [x] == [x] && BodyBytes([x][1..]) == [];
    } else {
      BodyAppended(log[1..], x);
      assert (log + [x])[1..] == log[1..] + [x];
    }
  }

  // ----- Runs with crashes -----

  datatype Event =
    | Record(id: bytes, data: bytes)
    | Begin(id: bytes)
    | Confirm(id: bytes)
    | Compensate(id: bytes)
    | Prune
    | Save
    | Restore

  /** The live log, with how often each ID was begun and settled on the history that
      leads to it; a restore goes back to the history of the save. */
  datatype Point = Point(log: seq<Intent>, begun: multiset<bytes>, settled: multiset<bytes>)

  /** `used` is every ID ever recorded, whether or not a crash lost the recording;
      `savedAt` is the point at which `saved` was written. */
  datatype RunState = RunState(now: Point, used: set<bytes>, saved: bytes, savedAt: Point)

  const EMPTY := Point([], multiset{}, multiset{})
  const START := RunState(EMPTY, {}, [], EMPTY)

  function Count(m: multiset<bytes>, id: bytes, o: Outcome): multiset<bytes> {
    if o == Done then m + multiset{id} else m
  }

  function StepPoint(p: Point, e: Event): Point {
    match e
    case Record(id, data) => p.(log := Recorded(p.log, id, data).0)
    case Begin(id) =>
      var (log, o) := Begun(p.log, id);
      p.(log := log, begun := Count(p.begun, id, o))
    case Confirm(id) =>
      var (log, o) := Confirmed(p.log, id);
      p.(log := log, settled := Count(p.settled, id, o))
    case Compensate(id) =>
      var (log, o) := Compensated(p.log, id);
      p.(log := log, settled := Count(p.settled, id, o))
    case Prune => p.(log := Pruned(p.log))
    case _ => p
  }

  function Step(s: RunState, e: Event): RunState {
    match e
    case Save => s.(saved := Marshalled(s.now.log), savedAt := s.now)
    case Restore => s.(now := s.savedAt.(log := Unmarshalled(s.saved)))
    case Record(id, _) => s.(now := StepPoint(s.now, e), used := s.used + {id})
    case _ => s.(now := StepPoint(s.now, e))
  }

  /** IDs are never reused, and what is recorded fits the 32-bit lengths of the format. */
  ghost predicate Allowed(s: RunState, e: Event) {
    e.Record? ==>
      && e.id !in s.used
      && |e.id| < TWO_TO_THE_32 && |e.data| < TWO_TO_THE_32 && |s.now.log| + 1 < TWO_TO_THE_32
  }

  ghost predicate AllowedRun(s: RunState, es: seq<Event>)
    decreases |es|
  {
    es == [] || (Allowed(s, es[0]) && AllowedRun(Step(s, es[0]), es[1..]))
  }

  function Run(s: RunState, es: seq<Event>): RunState
    decreases |es|
  {
    if es == [] then s else Run(Step(s, es[0]), es[1..])
  }

  ghost predicate Distinct(log: seq<Intent>) {
    forall i, j :: 0 <= i < j < |log| ==> log[i].id != log[j].id
  }

  ghost predicate PointInv(p: Point, used: set<bytes>) {
    && Distinct(p.log)
    && Fits(p.log)
    && (forall i :: i in p.log ==> IntentInv(i, p, used))
    && (forall id :: id in p.begun ==> id in used && p.begun[id] == 1)
    && (forall id :: id in p.settled ==> id in p.begun && p.settled[id] == 1)
  }

  ghost predicate IntentInv(i: Intent, p: Point, used: set<bytes>) {
    && i.id in used
    && RECORDED <= i.state <= COMPENSATED
    && (i.state == RECORDED <==> i.id !in p.begun)
    && (Terminal(i.state) <==> i.id in p.settled)
  }

  ghost predicate Inv(s: RunState) {
    && PointInv(s.now, s.used)
    && PointInv(s.savedAt, s.used)
    && Unmarshalled(s.saved) == ResumedLog(s.savedAt.log)
  }

  lemma MovedKeeps(p: Point, used: set<bytes>, id: bytes, from: set<byte>, to: byte, q: Point)
    requires PointInv(p, used)
    requires q.log == Moved(p.log, id, from, to).0
    requires RECORDED <= to <= COMPENSATED
    requires
      var o := Moved(p.log, id, from, to).1;
      || (from == {RECORDED} && to == IN_FLIGHT && q.begun == Count(p.begun, id, o) && q.settled == p.settled)
      || (from == {IN_FLIGHT, UNRESOLVED} && Terminal(to) && q.begun == p.begun && q.settled == Count(p.settled, id, o))
    ensures PointInv(q, used)
  {
    var (log, o) := Moved(p.log, id, from, to);
    if o == Done {
      var k := Find(p.log, id).value;
      assert p.log[k] in p.log;
      forall i | i in q.log
        ensures IntentInv(i, q, used)
      {
        var j :| 0 <= j < |q.log| && q.log[j] == i;
        assert p.log[j] in p.log && IntentInv(p.log[j], p, used);
        if j != k {
          assert q.log[j].id != id;
        }
      }
    }
  }

  lemma {:induction false} PrunedKeeps(log: seq<Intent>)
    requires Distinct(log)
    ensures Distinct(Pruned(log)) && |Pruned(log)| <= |log|
  {
    if log != [] {
      var n := |log| - 1;
      PrunedKeeps(log[..n]);
      forall k | 0 <= k < |Pruned(log[..n])|
        ensures Pruned(log[..n])[k].id != log[n].id
      {
        assert Pruned(log[..n])[k] in log[..n];
      }
    }
  }

  lemma ResumedKeeps(p: Point, used: set<bytes>)
    requires PointInv(p, used)
    ensures PointInv(p.(log := ResumedLog(p.log)), used)
  {
    var q := p.(log := ResumedLog(p.log));
    forall i | i in q.log
      ensures IntentInv(i, q, used)
    {
      var j :| 0 <= j < |q.log| && q.log[j] == i;
      assert p.log[j] in p.log;
    }
  }

  lemma PointGrows(p: Point, used: set<bytes>, more: set<bytes>)
    requires PointInv(p, used) && used <= more
    ensures PointInv(p, more)
  {
    forall i | i in p.log
      ensures IntentInv(i, p, more)
    {
      assert IntentInv(i, p, used);
    }
  }

  lemma RecordKeeps(s: RunState, e: Event)
    requires Inv(s) && e.Record? && Allowed(s, e)
    ensures PointInv(Step(s, e).now, s.used + {e.id})
  {
    var p, q, used := s.now, Step(s, e).now, s.used + {e.id};
    PointGrows(p, s.used, used);
    forall k | 0 <= k < |p.log|
      ensures p.log[k].id != e.id
    {
      assert p.log[k] in p.log;
    }
    forall i | i in q.log
      ensures IntentInv(i, q, used)
    {
      if i in p.log {
        assert IntentInv(i, p, used);
      }
    }
  }

  lemma StepKeepsInv(s: RunState, e: Event)
    requires Inv(s) && Allowed(s, e)
    ensures Inv(Step(s, e))
  {
    var t := Step(s, e);
    match e {
      case Record(id, data) =>
        RecordKeeps(s, e);
        PointGrows(s.savedAt, s.used, t.used);
      case Begin(id) => MovedKeeps(s.now, s.used, id, {RECORDED}, IN_FLIGHT, t.now);
      case Confirm(id) => MovedKeeps(s.now, s.used, id, {IN_FLIGHT, UNRESOLVED}, CONFIRMED, t.now);
      case Compensate(id) => MovedKeeps(s.now, s.used, id, {IN_FLIGHT, UNRESOLVED}, COMPENSATED, t.now);
      case Prune =>
        PrunedKeeps(s.now.log);
        forall i | i in t.now.log
          ensures IntentInv(i, t.now, s.used)
        {
          assert IntentInv(i, s.now, s.used);
        }
        forall k | 0 <= k < |t.now.log|
          ensures |t.now.log[k].id| < TWO_TO_THE_32 && |t.now.log[k].data| < TWO_TO_THE_32
        {
          assert t.now.log[k] in s.now.log;
        }
      case Save => RestoreAppliesResumeRule(s.now.log);
      case Restore => ResumedKeeps(s.savedAt, s.used);
    }
  }

  lemma {:induction false} RunKeepsInv(s: RunState, es: seq<Event>)
    requires Inv(s) && AllowedRun(s, es)
    ensures Inv(Run(s, es))
    decreases |es|
  {
    if es != [] {
      StepKeepsInv(s, es[0]);
      RunKeepsInv(Step(s, es[0]), es[1..]);
    }
  }

  /** In every run from the empty log IDs stay distinct, and on the history behind the
      live log no ID was begun twice or settled twice. */
  lemma EveryRunIsAtMostOnce(es: seq<Event>, id: bytes)
    requires AllowedRun(START, es)
    ensures
      var s := Run(START, es);
      && Distinct(s.now.log)
      && s.now.begun[id] <= 1
      && s.now.settled[id] <= s.now.begun[id]
      && Unmarshalled(s.saved) == ResumedLog(s.savedAt.log)
  {
    RunKeepsInv(START, es);
    var p := Run(START, es).now;
    assert id in p.begun ==> p.begun[id] == 1;
    assert id in p.settled ==> id in p.begun && p.settled[id] == 1;
  }

  ghost predicate Locked(s: RunState, id: bytes, settled: bool) {
    && id in s.now.begun && id in s.savedAt.begun
    && (settled ==> id in s.now.settled && id in s.savedAt.settled)
  }

  lemma StepKeepsLocked(s: RunState, e: Event, id: bytes, settled: bool)
    requires Inv(s) && Allowed(s, e) && Locked(s, id, settled)
    ensures Locked(Step(s, e), id, settled)
  {
  }

  lemma {:induction false} RunKeepsLocked(s: RunState, es: seq<Event>, id: bytes, settled: bool)
    requires Inv(s) && AllowedRun(s, es) && Locked(s, id, settled)
    ensures Inv(Run(s, es)) && Locked(Run(s, es), id, settled)
    decreases |es|
  {
    if es != [] {
      StepKeepsInv(s, es[0]);
      StepKeepsLocked(s, es[0], id, settled);
      RunKeepsLocked(Step(s, es[0]), es[1..], id, settled);
    }
  }

  lemma LockedNeverBeginsAgain(s: RunState, id: bytes)
    requires Inv(s) && id in s.now.begun
    ensures Begun(s.now.log, id).1 != Done
    ensures id in s.now.settled ==> Confirmed(s.now.log, id).1 != Done && Compensated(s.now.log, id).1 != Done
  {
    var f := Find(s.now.log, id);
    if f.Some? {
      assert s.now.log[f.value] in s.now.log;
    }
  }

  /** Once a save holds an intent that was begun, no Begin of it succeeds in any later
      run, crashes and restores included. */
  lemma BegunBySaveNeverBeginsAgain(before: seq<Event>, after: seq<Event>, id: bytes)
    requires AllowedRun(START, before)
    requires AllowedRun(Step(Run(START, before), Save), after)
    requires id in Run(START, before).now.begun
    ensures Begun(Run(Step(Run(START, before), Save), after).now.log, id).1 != Done
  {
    RunKeepsInv(START, before);
    var s := Step(Run(START, before), Save);
    StepKeepsInv(Run(START, before), Save);
    RunKeepsLocked(s, after, id, false);
    LockedNeverBeginsAgain(Run(s, after), id);
  }

  /** Once a save holds a settlement, the intent is never settled again in any later run. */
  lemma SettledBySaveNeverSettlesAgain(before: seq<Event>, after: seq<Event>, id: bytes)
    requires AllowedRun(START, before)
    requires AllowedRun(Step(Run(START, before), Save), after)
    requires id in Run(START, before).now.settled
    ensures
      var log := Run(Step(Run(START, before), Save), after).now.log;
      Confirmed(log, id).1 != Done && Compensated(log, id).1 != Done
  {
    RunKeepsInv(START, before);
    var s := Step(Run(START, before), Save);
    StepKeepsInv(Run(START, before), Save);
    RunKeepsLocked(s, after, id, true);
    LockedNeverBeginsAgain(Run(s, after), id);
  }

  /** Exactly which intents a crash lets an agent begin (again): those the last save
      still holds as Recorded. An intent begun only after the save is one of them. */
  lemma BeginAfterCrashIff(es: seq<Event>, id: bytes)
    requires AllowedRun(START, es)
    ensures
      var s := Run(START, es);
      (Begun(Step(s, Restore).now.log, id).1 == Done)
        <==> (exists i :: i in s.savedAt.log && i.id == id && i.state == RECORDED)
  {
    hide Find;
    RunKeepsInv(START, es);
    BeginAfterResumeIff(Run(START, es).savedAt.log, id);
  }

  lemma BeginAfterResumeIff(saved: seq<Intent>, id: bytes)
    requires Distinct(saved)
    ensures
      (Begun(ResumedLog(saved), id).1 == Done)
        <==> (exists i :: i in saved && i.id == id && i.state == RECORDED)
  {
    var live := ResumedLog(saved);
    var f := Find(live, id);
    if f.Some? {
      assert saved[f.value] in saved && saved[f.value].id == id;
    }
    if i :| i in saved && i.id == id && i.state == RECORDED {
      var k :| 0 <= k < |saved| && saved[k] == i;
      assert live[k].id == id;
      assert f.Some? && saved[f.value].id == id;
      assert f.value == k;
    }
  }

  // ----- The class -----

  class EffectLog {
    var intents: seq<Intent>

    constructor ()
      ensures intents == []
    {
      intents := [];
    }

    /** The position of the first intent with the ID, or -1; stands for the pointer find returns. */
    method FindIndex(id: bytes) returns (k: int)
      ensures k == -1 <==> Find(intents, id).None?
      ensures k >= 0 ==> Find(intents, id) == Some(k)
      ensures -1 <= k
    {
      for i := 0 to |intents|
        invariant forall j :: 0 <= j < i ==> intents[j].id != id
      {
        if intents[i].id == id {
          return i;
        }
      }
      return -1;
    }

    method Record(id: bytes, data: bytes) returns (o: Outcome)
      modifies this
      ensures (intents, o) == Recorded(old(intents), id, data)
    {
      var k := FindIndex(id);
      if k >= 0 {
        return AlreadyExists;
      }
      intents := intents + [Intent(id, RECORDED, data)];
      o := Done;
    }

    method Begin(id: bytes) returns (o: Outcome)
      modifies this
      ensures (intents, o) == Begun(old(intents), id)
    {
      var k := FindIndex(id);
      if k < 0 {
        return NotFound;
      }
      if intents[k].state != RECORDED {
        return InvalidTransition;
      }
      intents := intents[k := intents[k].(state := IN_FLIGHT)];
      o := Done;
    }

    method Confirm(id: bytes) returns (o: Outcome)
      modifies this
      ensures (intents, o) == Confirmed(old(intents), id)
    {
      var k := FindIndex(id);
      if k < 0 {
        return NotFound;
      }
      if intents[k].state != IN_FLIGHT && intents[k].state != UNRESOLVED {
        return InvalidTransition;
      }
      intents := intents[k := intents[k].(state := CONFIRMED)];
      o := Done;
    }

    method Compensate(id: bytes) returns (o: Outcome)
      modifies this
      ensures (intents, o) == Compensated(old(intents), id)
    {
      var k := FindIndex(id);
      if k < 0 {
        return NotFound;
      }
      if intents[k].state != IN_FLIGHT && intents[k].state != UNRESOLVED {
        return InvalidTransition;
      }
      intents := intents[k := intents[k].(state := COMPENSATED)];
      o := Done;
    }

    method Prune() returns (n: nat)
      modifies this
      ensures intents == Pruned(old(intents))
      ensures n == |old(intents)| - |intents|
    {
      n := 0;
      var kept := [];
      for i := 0 to |intents|
        invariant intents == old(intents)
        invariant kept == Pruned(intents[..i])
        invariant n + |kept| == i
      {
        assert intents[..i + 1][..i] == intents[..i];
        if intents[i].state == CONFIRMED || intents[i].state == COMPENSATED {
          n := n + 1;
        } else {
          kept := kept + [intents[i]];
        }
      }
      assert intents[..|intents|] == intents;
      intents := kept;
    }

    method Marshal() returns (data: bytes)
      ensures data == Marshalled(intents)
    {
      var log := intents;
      var enc := new Encoder();
      enc.Uint32(|log| % TWO_TO_THE_32);
      ghost var all := enc.buf + BodyBytes(log);
      assert all == Marshalled(log);
      assert log[0..] == log;
      for i := 0 to |log|
        invariant enc.buf + BodyBytes(log[i..]) == all
      {
        BodyStep(enc.buf, log, i);
        WriteIntent(enc, log[i]);
      }
      data := enc.buf;
    }

    static method WriteIntent(enc: Encoder, i: Intent)
      modifies enc
      ensures enc.buf == old(enc.buf) + IntentBytes(i)
    {
      hide Prefixed;
      enc.Raw([i.state]);
      enc.Bytes(i.id);
      enc.Bytes(i.data);
    }

    method Unmarshal(data: bytes)
      modifies this
      ensures intents == Unmarshalled(data)
    {
      if |data| == 0 {
        intents := [];
        return;
      }
      var d := new Decoder(data);
      var count := d.Uint32();
      if d.err {
        intents := [];
        return;
      }
      intents := ReadAll(d, count);
    }

    static method ReadAll(d: Decoder, count: nat) returns (list: seq<Intent>)
      requires d.Valid()
      modifies d
      ensures list == ReadIntents(old(d.View()), count)
    {
      hide NextIntent;
      list := [];
      var i := 0;
      ghost var r := d.View();
      ghost var all := ReadIntents(r, count);
      while i < count
        invariant i <= count && d.Valid() && r == d.View()
        invariant list + ReadIntents(r, count - i) == all
      {
        if d.err || d.pos >= |d.data| {
          ReadEnd(r, count - i);
          break;
        }
        var x := ReadIntent(d);
        ReadStep(list, r, count - i);
        list := list + [x];
        i := i + 1;
        r := d.View();
      }
    }

    static method ReadIntent(d: Decoder) returns (i: Intent)
      requires d.Valid() && !d.err && d.pos < |d.data|
      modifies d
      ensures d.Valid() && (i, d.View()) == NextIntent(old(d.View()))
    {
      var state := d.data[d.pos];
      ghost var r := d.View();
      d.pos := d.pos + 1;
      assert d.View() == Reader(r.rest[1..], false);
      var id := d.Bytes();
      var payload := d.Bytes();
      if state == IN_FLIGHT {
        state := UNRESOLVED;
      }
      i := Intent(id, state, payload);
    }

    method UnresolvedIntents() returns (out: seq<Intent>)
      ensures out == Selected(intents, false)
    {
      out := [];
      for i := 0 to |intents|
        invariant out == Selected(intents[..i], false)
      {
        assert intents[..i + 1][..i] == intents[..i];
        if intents[i].state == UNRESOLVED {
          out := out + [intents[i]];
        }
      }
      assert intents[..|intents|] == intents;
    }

    method Pending() returns (out: seq<Intent>)
      ensures out == Selected(intents, true)
    {
      out := [];
      for i := 0 to |intents|
        invariant out == Selected(intents[..i], true)
      {
        assert intents[..i + 1][..i] == intents[..i];
        if intents[i].state != CONFIRMED && intents[i].state != COMPENSATED {
          out := out + [intents[i]];
        }
      }
      assert intents[..|intents|] == intents;
    }
  }

  /** Both selections keep the log's order. */
  lemma {:induction false} SelectionSays(a: seq<Intent>, b: seq<Intent>, pending: bool)
    ensures Selected(a + b, pending) == Selected(a, pending) + Selected(b, pending)
    decreases |b|
  {
    hide Selected;
    SelectionStep([], Intent([], 3, []), pending);
    if b == [] {
      assert a + b == a;
    } else {
      var n := |b| - 1;
      SelectionSays(a, b[..n], pending);
      assert b == b[..n] + [b[n]];
      SelectOneMore(a, b[..n], b[n], pending);
    }
  }

  lemma SelectOneMore(a: seq<Intent>, b: seq<Intent>, x: Intent, pending: bool)
    requires Selected(a + b, pending) == Selected(a, pending) + Selected(b, pending)
    ensures Selected(a + (b + [x]), pending) == Selected(a, pending) + Selected(b + [x], pending)
  {
    hide Selected;
    SelectionStep(a + b, x, pending);
    SelectionStep(b, x, pending);
    assert a + (b + [x]) == (a + b) + [x];
  }

  lemma SelectionStep(log: seq<Intent>, x: Intent, pending: bool)
    ensures Selected([], pending) == []
    ensures
      Selected(log + [x], pending)
      == if (if pending then x.state != 3 && x.state != 5 else x.state == 4) then Selected(log, pending) + [x]
         else Selected(log, pending)
  {
    assert (log + [x])[..|log|] == log;
  }

  /** The intents not in a terminal state, or only the Unresolved ones, in log order. */
  function Selected(log: seq<Intent>, pending: bool): (r: seq<Intent>)
    ensures forall x :: x in r <==> x in log && (if pending then !Terminal(x.state) else x.state == UNRESOLVED)
  {
    if log == [] then []
    else
      var n := |log| - 1;
      assert log == log[..n] + [log[n]];
      var keep := if pending then !Terminal(log[n].state) else log[n].state == UNRESOLVED;
      Selected(log[..n], pending) + (if keep then [log[n]] else [])
  }
}
