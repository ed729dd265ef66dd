/** Saving again at a tick that is already saved, over all runs on one host: a timer save, a
    shutdown save, a restart, and so on. The archive keeps the first file of each tick; the
    hash chain runs through all of them. */
module Resaves {
  import opened Bytes
  import opened Checkpoints
  import opened Histories
  import C = Chains

  /** As Histories.Allowed, but a save may be at the tick of the latest checkpoint. */
  ghost predicate AllowedAgain(w: World, c: Crypto, id: Identity, e: Event) {
    && (e.Save? && w.running.Some? && w.saved != [] && |w.saved[|w.saved| - 1]| >= TICK_AT + 8 ==>
          TickOf(w.saved[|w.saved| - 1]) <= w.running.value.v.meter.tick)
    && (!e.Save? ==> Allowed(w, c, id, e))
  }

  ghost predicate AllowedAgainRun(w: World, c: Crypto, id: Identity, es: seq<Event>)
    decreases |es|
  {
    es == [] || (AllowedAgain(w, c, id, es[0]) && AllowedAgainRun(Step(w, c, id, es[0]), c, id, es[1..]))
  }

  ghost predicate SignedBelowLimit(data: bytes, c: Crypto, id: Identity) {
    UnderKey(data, c, id) && |data| >= TICK_AT + 8 && TickOf(data) < NAME_LIMIT
  }

  /** The next save is not at an earlier tick, and names the one before it. */
  ghost predicate Successor(prev: bytes, next: bytes, c: Crypto, id: Identity) {
    SignedBelowLimit(prev, c, id) && SignedBelowLimit(next, c, id)
    && TickOf(prev) <= TickOf(next) && C.HeaderOf(Some(next)).lineage.value.prevHash == c.hash(prev)
  }

  /** All saves, in order, form one hash chain under the agent's key, with ticks that never fall. */
  ghost predicate Chained(saved: seq<bytes>, c: Crypto, id: Identity)
    decreases |saved|
  {
    saved == [] ||
    (var n := |saved| - 1;
     && Chained(saved[..n], c, id)
     && SignedBelowLimit(saved[n], c, id)
     && (n > 0 ==> Successor(saved[n - 1], saved[n], c, id)))
  }

  predicate StartsTick(saved: seq<bytes>, k: nat)
    requires AllLong(saved) && k < |saved|
  {
    k == 0 || TickOf(saved[k - 1]) < TickOf(saved[k])
  }

  /** The first save at each tick, in order. */
  function Firsts(saved: seq<bytes>): (r: seq<bytes>)
    requires AllLong(saved)
    ensures AllLong(r) && (saved != [] ==> r != [])
  {
    if saved == [] then []
    else
      var n := |saved| - 1;
      Firsts(saved[..n]) + if StartsTick(saved, n) then [saved[n]] else []
  }

  /** Where the k-th save's tick was first saved. */
  function FirstIndex(saved: seq<bytes>, k: nat): (i: nat)
    requires AllLong(saved) && k < |saved|
    ensures i <= k && StartsTick(saved, i) && (forall j :: i < j <= k ==> !StartsTick(saved, j))
  {
    if StartsTick(saved, k) then k else FirstIndex(saved, k - 1)
  }

  /** If the k-th save starts a tick, the save before it has the hash of the first save of its own
      tick. */
  predicate KeepsHash(saved: seq<bytes>, k: nat, c: Crypto)
    requires AllLong(saved) && 0 < k < |saved|
  {
    StartsTick(saved, k) ==> c.hash(saved[k - 1]) == c.hash(saved[FirstIndex(saved, k - 1)])
  }

  /** Of every tick with a later one behind it, the last file saved has the first one's hash. */
  ghost predicate NothingLost(saved: seq<bytes>, c: Crypto)
    requires AllLong(saved)
  {
    forall k :: 0 < k < |saved| ==> KeepsHash(saved, k, c)
  }

  // ----- The archived files are linked exactly if nothing is lost -----

  lemma {:induction false} ChainedIsLong(saved: seq<bytes>, c: Crypto, id: Identity)
    requires Chained(saved, c, id)
    ensures AllLong(saved)
  {
    hide UnderKey, TickOf;
    if saved != [] {
      var n := |saved| - 1;
      ChainedIsLong(saved[..n], c, id);
      assert forall k :: 0 <= k < n ==> saved[..n][k] == saved[k];
    }
  }

  lemma StartsTickOfPrefix(saved: seq<bytes>, n: nat, k: nat)
    requires AllLong(saved) && k < n <= |saved|
    ensures AllLong(saved[..n]) && (StartsTick(saved[..n], k) <==> StartsTick(saved, k))
  {
    hide TickOf;
    assert forall j :: 0 <= j < n ==> saved[..n][j] == saved[j];
  }

  lemma {:induction false} FirstIndexOfPrefix(saved: seq<bytes>, n: nat, k: nat)
    requires AllLong(saved) && k < n <= |saved|
    ensures AllLong(saved[..n]) && FirstIndex(saved[..n], k) == FirstIndex(saved, k)
  {
    hide TickOf, StartsTick;
    StartsTickOfPrefix(saved, n, k);
    if !StartsTick(saved, k) {
      StartsFirst(saved);
      FirstIndexOfPrefix(saved, n, k - 1);
    }
  }

  lemma StartsFirst(saved: seq<bytes>)
    requires AllLong(saved) && saved != []
    ensures StartsTick(saved, 0)
  {
  }

  lemma KeepsHashOfPrefix(saved: seq<bytes>, n: nat, k: nat, c: Crypto)
    requires AllLong(saved) && 0 < k < n <= |saved|
    ensures AllLong(saved[..n]) && (KeepsHash(saved[..n], k, c) <==> KeepsHash(saved, k, c))
  {
    hide TickOf, StartsTick, FirstIndex;
    StartsTickOfPrefix(saved, n, k);
    FirstIndexOfPrefix(saved, n, k - 1);
    assert saved[..n][k - 1] == saved[k - 1];
    var i := FirstIndex(saved, k - 1);
    assert saved[..n][i] == saved[i];
  }

  lemma NothingLostStep(saved: seq<bytes>, c: Crypto)
    requires AllLong(saved) && |saved| > 1
    ensures AllLong(saved[..|saved| - 1])
    ensures
      NothingLost(saved, c) <==> NothingLost(saved[..|saved| - 1], c) && KeepsHash(saved, |saved| - 1, c)
  {
    hide KeepsHash;
    var n := |saved| - 1;
    LongPrefix(saved, n);
    forall k | 0 < k < n
      ensures KeepsHash(saved[..n], k, c) <==> KeepsHash(saved, k, c)
    {
      KeepsHashOfPrefix(saved, n, k, c);
    }
  }

  lemma LongPrefix(saved: seq<bytes>, n: nat)
    requires AllLong(saved) && n <= |saved|
    ensures AllLong(saved[..n])
  {
  }

  /** What the archive gets from one more save. */
  lemma FirstsStep(saved: seq<bytes>)
    requires AllLong(saved) && saved != []
    ensures AllLong(saved[..|saved| - 1])
    ensures
      Firsts(saved)
      == if StartsTick(saved, |saved| - 1) then Firsts(saved[..|saved| - 1]) + [saved[|saved| - 1]] else Firsts(saved[..|saved| - 1])
  {
    hide TickOf, StartsTick;
    LongPrefix(saved, |saved| - 1);
  }

  /** The archive's last file is the first one of the last save's tick, and has that tick. */
  lemma {:induction false} LastOfFirsts(saved: seq<bytes>, c: Crypto, id: Identity)
    requires AllLong(saved) && saved != [] && Chained(saved, c, id)
    ensures
      var last := Firsts(saved)[|Firsts(saved)| - 1];
      last == saved[FirstIndex(saved, |saved| - 1)] && TickOf(last) == TickOf(saved[|saved| - 1])
  {
    hide TickOf, Firsts, UnderKey;
    var n := |saved| - 1;
    FirstsStep(saved);
    if !StartsTick(saved, n) {
      var init := saved[..n];
      LastOfFirsts(init, c, id);
      FirstIndexOfPrefix(saved, n, n - 1);
      assert init[n - 1] == saved[n - 1];
    }
  }

  lemma {:induction false} FirstsAscend(saved: seq<bytes>, c: Crypto, id: Identity)
    requires AllLong(saved) && Chained(saved, c, id)
    ensures Sorted(Firsts(saved), TickBefore)
    ensures forall x :: x in Firsts(saved) ==> SignedBelowLimit(x, c, id)
  {
    hide TickOf, UnderKey, Firsts, SignedBelowLimit;
    if saved == [] {
      FirstsOfNone();
    } else {
      var n := |saved| - 1;
      FirstsStep(saved);
      FirstsAscend(saved[..n], c, id);
      if n == 0 {
        assert saved[..0] == [];
        FirstsOfNone();
      } else if StartsTick(saved, n) {
        StartedTickIsLater(saved, c, id);
        AscendsByOne(Firsts(saved[..n]), saved[n]);
      }
    }
  }

  lemma StartedTickIsLater(saved: seq<bytes>, c: Crypto, id: Identity)
    requires AllLong(saved) && Chained(saved, c, id) && |saved| > 1 && StartsTick(saved, |saved| - 1)
    ensures
      var init := saved[..|saved| - 1];
      AllLong(init) && TickBefore(Firsts(init)[|Firsts(init)| - 1], saved[|saved| - 1])
  {
    hide TickOf, UnderKey, Firsts, FirstIndex;
    var n := |saved| - 1;
    LongPrefix(saved, n);
    LastOfFirsts(saved[..n], c, id);
    assert saved[..n][n - 1] == saved[n - 1];
  }

  lemma FirstsOfNone()
    ensures Firsts([]) == []
  {
  }

  /** One more archived file follows the last one exactly if it names the last one's hash. */
  lemma LinkedByOne(archived: seq<bytes>, x: bytes, c: Crypto, id: Identity)
    requires archived != [] && UnderKey(x, c, id) && UnderKey(archived[|archived| - 1], c, id)
    requires TickBefore(archived[|archived| - 1], x)
    ensures
      C.Linked(SomeOf(archived + [x]), c)
      <==> C.Linked(SomeOf(archived), c)
           && C.HeaderOf(Some(x)).lineage.value.prevHash == c.hash(archived[|archived| - 1])
  {
    hide C.Linked, GoodSignature, ParseCheckpointHeader, TickOf;
    var n := |archived|;
    var files := SomeOf(archived + [x]);
    assert files[..n] == SomeOf(archived) && files[..n + 1] == files;
    assert files[n] == Some(x) && files[n - 1] == Some(archived[n - 1]);
    C.LinkedStep(files, n, c);
    TickOfHeader(x);
    TickOfHeader(archived[n - 1]);
  }

  lemma LoneIsLinked(x: bytes, c: Crypto, id: Identity)
    requires UnderKey(x, c, id)
    ensures C.Linked(SomeOf([x]), c)
  {
    hide GoodSignature, ParseCheckpointHeader;
    assert SomeOf([x]) == [Some(x)];
  }

  lemma {:induction false} FirstsLinkedIff(saved: seq<bytes>, c: Crypto, id: Identity)
    requires AllLong(saved) && Chained(saved, c, id) && saved != []
    ensures C.Linked(SomeOf(Firsts(saved)), c) <==> NothingLost(saved, c)
  {
    hide TickOf, C.Linked, UnderKey, Firsts, NothingLost, FirstIndex;
    var n := |saved| - 1;
    FirstsStep(saved);
    if n == 0 {
      assert saved[..0] == [];
      FirstsOfNone();
      StartsFirst(saved);
      assert [] + [saved[0]] == [saved[0]];
      LoneIsLinked(saved[0], c, id);
      LoneLosesNothing(saved, c);
    } else {
      FirstsLinkedIff(saved[..n], c, id);
      NothingLostStep(saved, c);
      if StartsTick(saved, n) {
        LastIsLinked(saved, c, id);
      }
    }
  }

  lemma LoneLosesNothing(saved: seq<bytes>, c: Crypto)
    requires AllLong(saved) && |saved| == 1
    ensures NothingLost(saved, c)
  {
  }

  /** The first file of a new tick fits behind the archive exactly if the tick before lost nothing. */
  lemma LastIsLinked(saved: seq<bytes>, c: Crypto, id: Identity)
    requires AllLong(saved) && Chained(saved, c, id) && |saved| > 1 && StartsTick(saved, |saved| - 1)
    ensures AllLong(saved[..|saved| - 1])
    ensures
      C.Linked(SomeOf(Firsts(saved[..|saved| - 1]) + [saved[|saved| - 1]]), c)
      <==> C.Linked(SomeOf(Firsts(saved[..|saved| - 1])), c) && KeepsHash(saved, |saved| - 1, c)
  {
    hide TickOf, C.Linked, UnderKey, Firsts, FirstIndex;
    var n := |saved| - 1;
    LongPrefix(saved, n);
    var init := saved[..n];
    FirstsAscend(init, c, id);
    LastOfFirsts(init, c, id);
    FirstIndexOfPrefix(saved, n, n - 1);
    var i := FirstIndex(saved, n - 1);
    assert init[i] == saved[i] && init[n - 1] == saved[n - 1];
    var last := Firsts(init)[|Firsts(init)| - 1];
    assert last in Firsts(init);
    LinkedByOne(Firsts(init), saved[n], c, id);
  }

  // ----- Runs on one host -----

  ghost predicate Inv(w: World, c: Crypto, id: Identity) {
    && |w.hosts| == 1 && AllLong(w.saved) && Chained(w.saved, c, id)
    && Holds(w.hosts[0].archive, Firsts(w.saved))
    && (w.running.Some? ==> w.running.value.host == 0 && Continues(w.running.value.v, w.saved, c))
  }

  /** A file of a tick that is archived changes nothing there. */
  lemma ArchivedTickStays(archive: map<string, bytes>, archived: seq<bytes>, data: bytes)
    requires AllLong(archived) && archived != [] && Holds(archive, archived) && |data| >= TICK_AT + 8
    requires TickOf(data) == TickOf(archived[|archived| - 1])
    ensures Archived(archive, data) == archive
  {
    hide Name, TickOf, HeldAs;
  }

  /** A file of a later tick is added. */
  lemma LaterTickIsAdded(archive: map<string, bytes>, archived: seq<bytes>, data: bytes)
    requires AllLong(archived) && Holds(archive, archived) && |data| >= TICK_AT + 8
    requires forall x :: x in archived ==> |x| >= TICK_AT + 8 && TickOf(x) < TickOf(data)
    ensures AllLong(archived + [data]) && Holds(Archived(archive, data), archived + [data])
  {
    hide Name, TickOf, HeldAs, Archived;
    var now, next := archived + [data], Archived(archive, data);
    NewTickIsNotHeld(archive, archived, data);
    ArchivedNew(archive, data);
    assert now[..|archived|] == archived;
    forall n | n in next
      ensures HeldAs(n, next[n], now)
    {
      if n in archive {
        HeldStill(n, archive[n], archived, now);
      } else {
        HeldNew(data, archived, now);
      }
    }
    forall k | 0 <= k < |now|
      ensures Name(TickOf(now[k])) in next
    {
      if k < |archived| {
        assert now[k] == archived[k];
      }
    }
  }

  lemma NewTickIsNotHeld(archive: map<string, bytes>, archived: seq<bytes>, data: bytes)
    requires AllLong(archived) && Holds(archive, archived) && |data| >= TICK_AT + 8
    requires forall x :: x in archived ==> |x| >= TICK_AT + 8 && TickOf(x) < TickOf(data)
    ensures Name(TickOf(data)) !in archive
  {
    hide Name, TickOf;
    var n := Name(TickOf(data));
    if n in archive {
      assert HeldAs(n, archive[n], archived);
      var k :| 0 <= k < |archived| && archive[n] == archived[k] && n == Name(TickOf(archived[k]));
      NamesAreDistinct(TickOf(data), TickOf(archived[k]));
    }
  }

  lemma ArchivedNew(archive: map<string, bytes>, data: bytes)
    requires |data| >= TICK_AT + 8 && Name(TickOf(data)) !in archive
    ensures Archived(archive, data) == archive[Name(TickOf(data)) := data]
  {
    hide Name, TickOf;
  }

  lemma AllBefore(archived: seq<bytes>, data: bytes)
    requires AllLong(archived) && archived != [] && Sorted(archived, TickBefore) && |data| >= TICK_AT + 8
    requires TickOf(archived[|archived| - 1]) < TickOf(data)
    ensures forall x :: x in archived ==> |x| >= TICK_AT + 8 && TickOf(x) < TickOf(data)
  {
    hide TickOf;
    var n := |archived| - 1;
    forall k | 0 <= k <= n
      ensures TickOf(archived[k]) < TickOf(data)
    {
      assert k < n ==> TickBefore(archived[k], archived[n]);
    }
  }

  lemma ChainedByOne(saved: seq<bytes>, data: bytes, c: Crypto, id: Identity)
    requires AllLong(saved) && Chained(saved, c, id) && SignedBelowLimit(data, c, id)
    requires saved != [] ==> Successor(saved[|saved| - 1], data, c, id)
    ensures AllLong(saved + [data]) && Chained(saved + [data], c, id)
  {
    hide SignedBelowLimit, Successor, TickOf;
    var now := saved + [data];
    assert now[..|saved|] == saved;
    assert |data| >= TICK_AT + 8 by { LongFromSigned(data, c, id); }
  }

  lemma LongFromSigned(data: bytes, c: Crypto, id: Identity)
    requires SignedBelowLimit(data, c, id)
    ensures |data| >= TICK_AT + 8
  {
  }

  /** What the archive holds after one more save in the chain. */
  lemma StoringKeepsFirsts(archive: map<string, bytes>, saved: seq<bytes>, data: bytes, c: Crypto, id: Identity)
    requires AllLong(saved) && Chained(saved, c, id) && Holds(archive, Firsts(saved))
    requires AllLong(saved + [data]) && Chained(saved + [data], c, id) && |data| >= TICK_AT + 8
    ensures Holds(Archived(archive, data), Firsts(saved + [data]))
  {
    hide TickOf, Firsts, Holds, Archived, SignedBelowLimit;
    var now := saved + [data];
    assert now[..|saved|] == saved && now[|saved|] == data;
    FirstsStep(now);
    FirstsAscend(saved, c, id);
    if saved == [] {
      FirstsOfNone();
      LaterTickIsAdded(archive, [], data);
    } else {
      LastOfFirsts(saved, c, id);
      if StartsTick(now, |saved|) {
        AllBefore(Firsts(saved), data);
        LaterTickIsAdded(archive, Firsts(saved), data);
      } else {
        ArchivedTickStays(archive, Firsts(saved), data);
      }
    }
  }

  lemma SaveKeepsInv(w: World, c: Crypto, id: Identity, state: bytes)
    requires c.Valid() && id.Valid(c) && Inv(w, c, id) && w.running.Some?
    requires AllowedAgain(w, c, id, Save(state)) && Solvent(w, Save(state))
    ensures Inv(Step(w, c, id, Save(state)), c, id)
  {
    hide Built, AfterBuild, TickOf, Archived, Holds, UnderKey, Firsts, Chained;
    var v := w.running.value.v;
    var data := Built(v, c, Some(id), state);
    SecondIsSigned(v, c, id, state);
    if w.saved != [] {
      ChainedEnds(w.saved, c, id);
    }
    ChainedByOne(w.saved, data, c, id);
    StoringKeepsFirsts(w.hosts[0].archive, w.saved, data, c, id);
    assert (w.saved + [data])[|w.saved|] == data;
  }

  lemma ChainedEnds(saved: seq<bytes>, c: Crypto, id: Identity)
    requires Chained(saved, c, id) && saved != []
    ensures SignedBelowLimit(saved[|saved| - 1], c, id) && EndsUnderKey(saved, c, id)
  {
    hide UnderKey, TickOf;
  }

  lemma StepKeepsInv(w: World, c: Crypto, id: Identity, e: Event)
    requires c.Valid() && id.Valid(c) && Inv(w, c, id) && AllowedAgain(w, c, id, e) && Solvent(w, e)
    ensures Inv(Step(w, c, id, e), c, id)
  {
    hide Loaded, Built, AfterBuild, Archived, Holds, TickOf, ParseCheckpointHeader, Firsts, Chained, EndsUnderKey, SignedBelowLimit;
    if w.saved != [] {
      ChainedEnds(w.saved, c, id);
    }
    match e {
      case Launch(h, blank) =>
        LoadContinues(w.saved, c, id, blank);
      case Resume(s, h, blank) =>
        LoadContinues(w.saved, c, id, blank);
        LastOfFirsts(w.saved, c, id);
        ArchivedTickStays(w.hosts[0].archive, Firsts(w.saved), Latest(w).value);
      case Tick(_) =>
      case Save(state) =>
        if w.running.Some? {
          SaveKeepsInv(w, c, id, state);
        }
      case Stop =>
    }
  }

  lemma {:induction false} RunKeepsInv(w: World, c: Crypto, id: Identity, es: seq<Event>)
    requires c.Valid() && id.Valid(c) && Inv(w, c, id) && AllowedAgainRun(w, c, id, es) && SolventRun(w, c, id, es)
    ensures Inv(Run(w, c, id, es), c, id)
    decreases |es|
  {
    hide Inv, Step, AllowedAgain, Solvent;
    if es != [] {
      StepKeepsInv(w, c, id, es[0]);
      RunKeepsInv(Step(w, c, id, es[0]), c, id, es[1..]);
    }
  }

  lemma InitiallyInv(c: Crypto, id: Identity)
    ensures Inv(Initially(1), c, id)
  {
  }

  function Directory(w: World): map<string, bytes> {
    if |w.hosts| > 0 then w.hosts[0].archive else map[]
  }

  /** For every run on one host: its directory lists the first file saved at each tick, and verifies
      exactly if, of every tick with a later one behind it, the last file saved has that file's
      hash. */
  lemma DirectoryVerifiesIffNothingLost(c: Crypto, id: Identity, es: seq<Event>, names: seq<string>)
    requires c.Valid() && id.Valid(c) && AllowedAgainRun(Initially(1), c, id, es) && SolventRun(Initially(1), c, id, es)
    requires Run(Initially(1), c, id, es).saved != []
    requires IsListing(names, Directory(Run(Initially(1), c, id, es)))
    ensures
      var w := Run(Initially(1), c, id, es);
      && AllLong(w.saved)
      && Contents(names, Directory(w)) == Firsts(w.saved)
      && (C.Valid(SomeOf(Firsts(w.saved)), c) <==> NothingLost(w.saved, c))
  {
    hide Run, AllowedAgainRun, SolventRun, C.Valid, C.Linked, Holds, IsListing, Firsts, Chained, Sorted, UnderKey, NothingLost, TickOf;
    InitiallyInv(c, id);
    RunKeepsInv(Initially(1), c, id, es);
    var w := Run(Initially(1), c, id, es);
    FirstsAscend(w.saved, c, id);
    var firsts := Firsts(w.saved);
    assert forall k :: 0 <= k < |firsts| ==> firsts[k] in firsts;
    ListsInOrder(names, Directory(w), firsts);
    FirstsLinkedIff(w.saved, c, id);
    if |firsts| == 1 {
      assert firsts == [firsts[0]];
      LoneIsLinked(firsts[0], c, id);
      LoneFileVerifies(firsts, c);
    } else {
      C.ValidIff(SomeOf(firsts), c);
    }
  }
}
