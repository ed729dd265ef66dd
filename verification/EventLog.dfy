/** Observation recording (internal/eventlog): payloads are copied into a per-tick arena, or
    onto the heap when it is full, and a bounded history of sealed ticks is kept. */
module EventLogs {
  import opened Bytes

  type HostcallID = x: int | 0 <= x < 0x1_0000

  /** What was recorded, as values. */
  datatype Observation = Observation(id: HostcallID, payload: bytes)

  datatype Observed = Observed(tick: uint64, entries: seq<Observation>)

  const ARENA_SIZE: nat := 4096

  /** A recorded entry: its payload is a stretch of some backing array. */
  datatype Entry = Entry(id: HostcallID, backing: array<byte>, off: nat, len: nat) {

    predicate Shows(o: Observation)
      reads backing
    {
      id == o.id && off + len <= backing.Length && backing[off..off + len] == o.payload
    }
  }

  class TickLog {
    const tickNumber: uint64
    const arena: array<byte>
    var entries: seq<Entry>
    var offset: nat
    ghost var contents: seq<Observation>
    ghost var Repr: set<object>

    /** Every entry shows what was recorded, and the arena is only used up to the offset. */
    ghost predicate Valid()
      reads this, Repr
    {
      && this in Repr && arena in Repr
      && arena.Length == ARENA_SIZE && offset <= ARENA_SIZE
      && |entries| == |contents|
      && (forall k :: 0 <= k < |entries| ==>
            && entries[k].backing in Repr
            && entries[k].Shows(contents[k])
            && (entries[k].backing == arena ==> entries[k].off + entries[k].len <= offset))
    }

    ghost function View(): Observed
      reads this
    {
      Observed(tickNumber, contents)
    }

    constructor (tickNumber: uint64)
      ensures Valid() && fresh(Repr) && View() == Observed(tickNumber, [])
    {
      this.tickNumber := tickNumber;
      entries, offset, contents := [], 0, [];
      arena := new byte[ARENA_SIZE](_ => 0);
      new;
      Repr := {this, arena};
    }

    /** Copies the caller's bytes; every earlier entry still shows what it did. */
    method Append(id: HostcallID, payload: array<byte>)
      requires Valid()
      modifies Repr
      ensures Valid() && fresh(Repr - old(Repr)) && old(Repr) <= Repr
      ensures View() == old(View()).(entries := old(contents) + [Observation(id, old(payload[..]))])
      ensures |entries| == old(|entries|) + 1 && entries[..old(|entries|)] == old(entries)
    {
      ghost var o := Observation(id, payload[..]);
      var p := Place(id, payload);
      entries := entries + [p];
      contents := contents + [o];
    }

    /** The entries read back, as values. */
    method Observations() returns (os: seq<Observation>)
      requires Valid()
      ensures os == contents
    {
      os := [];
      for k := 0 to |entries|
        invariant os == contents[..k]
      {
        var e := entries[k];
        assert e.Shows(contents[k]);
        os := os + [Observation(e.id, e.backing[e.off..e.off + e.len])];
      }
    }

    method Place(id: HostcallID, payload: array<byte>) returns (p: Entry)
      requires Valid()
      modifies this`offset, this`Repr, arena
      ensures Valid() && fresh(Repr - old(Repr)) && old(Repr) <= Repr
      ensures entries == old(entries) && contents == old(contents)
      ensures p.backing in Repr && p.Shows(Observation(id, old(payload[..])))
      ensures p.backing == arena ==> p.off + p.len <= offset
    {
      var needed := payload.Length;
      if offset + needed <= arena.Length {
        p := Entry(id, arena, offset, needed);
        CopyInto(payload, arena, offset);
        offset := offset + needed;
        forall k | 0 <= k < |entries|
          ensures entries[k].Shows(contents[k])
        {
          assert old(entries[k].Shows(contents[k]));
        }
      } else {
        var heap := new byte[needed];
        CopyInto(payload, heap, 0);
        p := Entry(id, heap, 0, needed);
        Repr := Repr + {heap};
      }
    }
  }

  method CopyInto(src: array<byte>, dst: array<byte>, off: nat)
    requires off + src.Length <= dst.Length
    modifies dst
    ensures dst[off..off + src.Length] == old(src[..])
    ensures dst[..off] == old(dst[..off])
  {
    forall k | 0 <= k < src.Length {
      dst[off + k] := src[k];
    }
  }

  function Last<T>(s: seq<T>, max: int): seq<T> {
    if max > 0 && |s| > max then s[|s| - max..] else s
  }

  /** The newest `max` elements in order, or all of them if there are no more or max is not positive. */
  lemma LastSays<T>(s: seq<T>, max: int)
    ensures |Last(s, max)| == if 0 < max < |s| then max else |s|
    ensures forall k :: 0 <= k < |Last(s, max)| ==> Last(s, max)[k] == s[|s| - |Last(s, max)| + k]
  {
  }

  /** Trimming after each append keeps the last `max` of everything appended. */
  lemma LastAppended<T>(all: seq<T>, x: T, max: int)
    ensures Last(Last(all, max) + [x], max) == Last(all + [x], max)
  {
    var kept := Last(all, max);
    if max > 0 && |all| > max {
      assert (kept + [x])[1..] == kept[1..] + [x];
      assert (all + [x])[|all| + 1 - max..] == all[|all| + 1 - max..] + [x];
    }
  }

  /** These logs are intact within r, and show just this. */
  ghost predicate Shown(logs: seq<TickLog>, observed: seq<Observed>, r: set<object>)
    reads r
  {
    && |logs| == |observed|
    && (forall k :: 0 <= k < |logs| ==>
          logs[k] in r && logs[k].Repr <= r && logs[k].Valid() && logs[k].View() == observed[k])
  }

  lemma ShownAppended(logs: seq<TickLog>, observed: seq<Observed>, q: set<object>, log: TickLog, r: set<object>)
    requires Shown(logs, observed, q) && q <= r && log in r && log.Repr <= r && log.Valid()
    ensures Shown(logs + [log], observed + [log.View()], r)
  {
    hide TickLog.Valid;
  }

  lemma ShownTrimmed(logs: seq<TickLog>, observed: seq<Observed>, r: set<object>, max: int)
    requires Shown(logs, observed, r)
    ensures Shown(Last(logs, max), Last(observed, max), r)
  {
    hide TickLog.Valid;
  }

  /** Sealing a log and trimming keeps the newest `max` of all that was recorded. */
  lemma ShownSealed(logs: seq<TickLog>, recorded: seq<Observed>, q: set<object>, log: TickLog, r: set<object>, max: int)
    requires Shown(logs, Last(recorded, max), q) && q <= r && log in r && log.Repr <= r && log.Valid()
    ensures Shown(Last(logs + [log], max), Last(recorded + [log.View()], max), r)
  {
    hide TickLog.Valid, Shown, Last;
    ShownAppended(logs, Last(recorded, max), q, log, r);
    ShownTrimmed(logs + [log], Last(recorded, max) + [log.View()], r, max);
    LastAppended(recorded, log.View(), max);
  }

  class EventLog {
    const maxTicks: int
    var current: TickLog?
    var history: seq<TickLog>
    /** Every tick sealed so far, as it was recorded. */
    ghost var recorded: seq<Observed>
    ghost var Repr: set<object>

    /** Everything but this object and the current log. */
    ghost function Rest(): set<object>
      reads this, current
    {
      Repr - {this} - if current == null then {} else current.Repr
    }

    /** The history is the last maxTicks sealed logs, and each still shows what was recorded. */
    ghost predicate Valid()
      reads this, Repr
    {
      && this in Repr
      && (current != null ==> current in Repr && current.Repr <= Repr - {this} && current.Valid())
      && Shown(history, Last(recorded, maxTicks), Rest())
    }

    /** What has been recorded for the tick in progress. */
    ghost function Current(): Option<Observed>
      reads this, current
    {
      if current == null then None else Some(current.View())
    }

    constructor (maxTicks: int)
      ensures Valid() && fresh(Repr) && this.maxTicks == maxTicks
      ensures recorded == [] && Current() == None
    {
      this.maxTicks := maxTicks;
      current, history, recorded := null, [], [];
      Repr := {this};
    }

    method BeginTick(tickNumber: uint64)
      requires Valid()
      modifies this
      ensures Valid() && fresh(Repr - old(Repr)) && old(Repr) <= Repr
      ensures Current() == Some(Observed(tickNumber, [])) && recorded == old(recorded)
    {
      current := new TickLog(tickNumber);
      Repr := Repr + current.Repr;
    }

    /** Nothing is recorded between ticks. */
    method Record(id: HostcallID, payload: array<byte>)
      requires Valid()
      modifies Repr
      ensures Valid() && fresh(Repr - old(Repr)) && old(Repr) <= Repr
      ensures recorded == old(recorded) && history == old(history)
      ensures
        Current() == match old(Current())
                     case None => None
                     case Some(o) => Some(o.(entries := o.entries + [Observation(id, old(payload[..]))]))
    {
      if current == null {
        return;
      }
      current.Append(id, payload);
      Repr := Repr + current.Repr;
    }

    method SealTick() returns (sealed: TickLog?)
      requires Valid()
      modifies this
      ensures Valid() && Repr == old(Repr)
      ensures sealed == old(current) && Current() == None
      ensures sealed != null ==> sealed.Valid() && Some(sealed.View()) == old(Current())
      ensures recorded == old(recorded) + if old(Current()).Some? then [old(Current()).value] else []
    {
      if current == null {
        return null;
      }
      hide TickLog.Valid, Shown, Last;
      sealed := current;
      ghost var r := Repr - {this};
      ShownSealed(history, recorded, Rest(), sealed, r, maxTicks);
      var kept := Trimmed(history + [sealed], maxTicks);
      recorded := recorded + [sealed.View()];
      history := kept;
      current := null;
      assert Rest() == r;
    }

    /** The newest `max`, copied into a list of their own. */
    static method Trimmed(logs: seq<TickLog>, max: int) returns (kept: seq<TickLog>)
      ensures kept == Last(logs, max)
    {
      kept := logs;
      if max > 0 && |logs| > max {
        kept := logs[|logs| - max..];
      }
    }

    /** An entry of a retained tick, read back: the bytes that were recorded. */
    method ReadEntry(k: nat, e: nat) returns (payload: bytes)
      requires Valid() && k < |history| && e < |history[k].entries|
      ensures
        var o := Last(recorded, maxTicks)[k];
        e < |o.entries| && payload == o.entries[e].payload
    {
      var entry := history[k].entries[e];
      assert entry.Shows(history[k].contents[e]);
      payload := entry.backing[entry.off..entry.off + entry.len];
    }
  }

  /** A caller may overwrite its buffer after recording from it: nothing recorded changes. */
  method RecordFromReusedBuffer(log: EventLog, id: HostcallID, buf: array<byte>, next: byte)
    requires log.Valid() && buf !in log.Repr
    modifies log.Repr, buf
    ensures log.Valid() && log.recorded == old(log.recorded)
    ensures
      old(log.Current()).Some? ==>
        var o := old(log.Current()).value;
        log.Current() == Some(o.(entries := o.entries + [Observation(id, old(buf[..]))]))
  {
    log.Record(id, buf);
    forall k | 0 <= k < buf.Length {
      buf[k] := next;
    }
  }
}
