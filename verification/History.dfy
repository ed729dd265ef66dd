/** Checkpoint storage (internal/storage/fs_provider.go) and the archived history that an agent
    leaves behind as it ticks, saves, stops, moves and resumes (cmd/igord). */
module Histories {
  import opened Bytes
  import opened Checkpoints
  import C = Chains

  // ----- File names -----

  function Digit(d: nat): char
    requires d < 10
  {
    (48 + d) as char
  }

  function Decimal(n: nat): (s: string)
    ensures |s| > 0
  {
    if n < 10 then [Digit(n)] else Decimal(n / 10) + [Digit(n % 10)]
  }

  function Noughts(n: nat): (s: string)
    ensures |s| == n
  {
    seq(n, _ => '0')
  }

  /** The directive %010d: at least ten digits. */
  function Padded(n: nat): string {
    var d := Decimal(n);
    Noughts(if |d| < 10 then 10 - |d| else 0) + d
  }

  const EXTENSION := ".ckpt"

  function Name(tick: nat): string { Padded(tick) + EXTENSION }

  function Pow10(n: nat): (p: nat)
    ensures p > 0
  {
    if n == 0 then 1 else 10 * Pow10(n - 1)
  }

  const TEN: nat := 10
  /** Below this many ticks, all archive names have the same length. */
  const NAME_LIMIT: nat := 10_000_000_000

  /** Byte order of strings, as sort.Strings uses it. */
  predicate Before(a: string, b: string) {
    if b == "" then false
    else if a == "" then true
    else if a[0] != b[0] then a[0] < b[0]
    else Before(a[1..], b[1..])
  }

  lemma {:induction false} BeforeIsStrict(a: string, b: string, c: string)
    ensures !Before(a, a)
    ensures Before(a, b) && Before(b, c) ==> Before(a, c)
  {
    if a != "" {
      BeforeIsStrict(a[1..], if b == "" then "" else b[1..], if c == "" then "" else c[1..]);
    }
  }

  lemma {:induction false} BeforeExtends(a: string, b: string, x: string, y: string)
    requires |a| == |b| && Before(a, b)
    ensures Before(a + x, b + y)
  {
    assert (a + x)[0] == a[0] && (b + y)[0] == b[0];
    if a[0] == b[0] {
      BeforeExtends(a[1..], b[1..], x, y);
      assert (a + x)[1..] == a[1..] + x && (b + y)[1..] == b[1..] + y;
    }
  }

  lemma {:induction false} BeforeBehind(p: string, x: string, y: string)
    requires Before(x, y)
    ensures Before(p + x, p + y)
  {
    if p == "" {
      assert p + x == x && p + y == y;
    } else {
      BeforeBehind(p[1..], x, y);
      assert (p + x)[1..] == p[1..] + x && (p + y)[1..] == p[1..] + y;
    }
  }

  /** Exactly w digits. */
  function Fixed(n: nat, w: nat): (s: string)
    ensures |s| == w
  {
    if w == 0 then "" else Fixed(n / 10, w - 1) + [Digit(n % 10)]
  }

  lemma {:induction false} PaddedIsFixed(n: nat, w: nat)
    requires w > 0 && n < Pow10(w)
    ensures |Decimal(n)| <= w
    ensures Noughts(w - |Decimal(n)|) + Decimal(n) == Fixed(n, w)
  {
    if n < 10 {
      ZeroIsNoughts(w - 1);
    } else {
      assert Pow10(w) == 10 * Pow10(w - 1);
      PaddedIsFixed(n / 10, w - 1);
      var d := Decimal(n / 10);
      assert Noughts(w - |Decimal(n)|) + (d + [Digit(n % 10)]) == (Noughts(w - 1 - |d|) + d) + [Digit(n % 10)];
    }
  }

  lemma {:induction false} ZeroIsNoughts(w: nat)
    ensures Fixed(0, w) == Noughts(w)
  {
    if w > 0 {
      ZeroIsNoughts(w - 1);
    }
  }

  lemma {:induction false} FixedOrder(m: nat, n: nat, w: nat)
    requires m < n < Pow10(w)
    ensures Before(Fixed(m, w), Fixed(n, w))
  {
    var x, y := [Digit(m % 10)], [Digit(n % 10)];
    if m / 10 < n / 10 {
      FixedOrder(m / 10, n / 10, w - 1);
      BeforeExtends(Fixed(m / 10, w - 1), Fixed(n / 10, w - 1), x, y);
    } else {
      BeforeBehind(Fixed(m / 10, w - 1), x, y);
    }
  }

  lemma LimitIsPow10()
    ensures Pow10(TEN) == NAME_LIMIT
  {
    assert Pow10(4) == 10_000;
    assert Pow10(7) == 1000 * Pow10(4);
    assert Pow10(10) == 1000 * Pow10(7);
  }

  /** Up to ten digits, names sort as the tick numbers do. */
  lemma NamesSortAsTicks(m: nat, n: nat)
    requires m < n < NAME_LIMIT
    ensures Before(Name(m), Name(n))
  {
    LimitIsPow10();
    PaddedIsFixed(m, TEN);
    PaddedIsFixed(n, TEN);
    FixedOrder(m, n, TEN);
    BeforeExtends(Fixed(m, TEN), Fixed(n, TEN), EXTENSION, EXTENSION);
  }

  /** The number a digit string stands for. */
  function NumberOf(s: string): int {
    if s == "" then 0 else 10 * NumberOf(s[..|s| - 1]) + (s[|s| - 1] as int - 48)
  }

  lemma {:induction false} NumberOfDecimal(n: nat)
    ensures NumberOf(Decimal(n)) == n
  {
    if n < 10 {
      assert Decimal(n)[..0] == "";
    } else {
      NumberOfDecimal(n / 10);
      assert Decimal(n)[..|Decimal(n)| - 1] == Decimal(n / 10);
    }
  }

  lemma {:induction false} NumberOfPadded(k: nat, s: string)
    ensures NumberOf(Noughts(k) + s) == NumberOf(s)
    decreases k + |s|
  {
    var all := Noughts(k) + s;
    if s != "" {
      assert all[..|all| - 1] == Noughts(k) + s[..|s| - 1];
      NumberOfPadded(k, s[..|s| - 1]);
    } else if k > 0 {
      assert all[..|all| - 1] == Noughts(k - 1) + s;
      NumberOfPadded(k - 1, s);
    }
  }

  lemma NamesAreDistinct(m: nat, n: nat)
    requires Name(m) == Name(n)
    ensures m == n
  {
    assert Name(m)[..|Name(m)| - |EXTENSION|] == Padded(m);
    assert Name(n)[..|Name(n)| - |EXTENSION|] == Padded(n);
    NumberOfDecimal(m);
    NumberOfDecimal(n);
    NumberOfPadded(|Padded(m)| - |Decimal(m)|, Decimal(m));
    NumberOfPadded(|Padded(n)| - |Decimal(n)|, Decimal(n));
  }

  ghost predicate Numeric(s: string) {
    forall k :: 0 <= k < |s| ==> '0' <= s[k] <= '9'
  }

  lemma {:induction false} DecimalIsNumeric(n: nat)
    ensures Numeric(Decimal(n))
  {
    if n >= 10 {
      DecimalIsNumeric(n / 10);
    }
  }

  /** A name is the tick in decimal, with leading zeros up to ten digits, and then the extension. */
  lemma NameSays(tick: nat)
    ensures
      var s := Name(tick);
      && |s| >= 15 && s[|s| - 5..] == ".ckpt" && Numeric(s[..|s| - 5]) && NumberOf(s[..|s| - 5]) == tick
      && (tick < 10_000_000_000 ==> |s| == 15) && (|s| > 15 ==> s[0] != '0')
  {
    var s, d := Name(tick), Decimal(tick);
    assert s[..|s| - 5] == Padded(tick);
    DecimalIsNumeric(tick);
    NumberOfDecimal(tick);
    NumberOfPadded(|Padded(tick)| - |d|, d);
    if tick < NAME_LIMIT {
      LimitIsPow10();
      PaddedIsFixed(tick, TEN);
    }
    DecimalStart(tick);
    LeadingIsPositive(tick);
  }

  lemma {:induction false} LeadingIsPositive(n: nat)
    ensures n > 0 ==> Leading(n) > 0
  {
    if n >= 10 {
      LeadingIsPositive(n / 10);
    }
  }

  function Leading(n: nat): (d: nat)
    ensures d < 10
  {
    if n < 10 then n else Leading(n / 10)
  }

  function Digits(n: nat): nat {
    if n < 10 then 1 else Digits(n / 10) + 1
  }

  lemma {:induction false} DecimalStart(n: nat)
    ensures Decimal(n)[0] == Digit(Leading(n)) && |Decimal(n)| == Digits(n)
  {
    if n >= 10 {
      DecimalStart(n / 10);
    }
  }

  lemma NameStart(n: nat)
    requires Digits(n) >= 10
    ensures Name(n)[0] == Digit(Leading(n))
  {
    DecimalStart(n);
  }

  /** One tick more and the order is lost: the eleven-digit name comes first. */
  lemma NameOrderBreaksAtLimit()
    ensures Before(Name(NAME_LIMIT), Name(NAME_LIMIT - 1))
  {
    assert Digits(10_000_000_000) == 11 && Leading(10_000_000_000) == 1;
    assert Digits(9_999_999_999) == 10 && Leading(9_999_999_999) == 9;
    NameStart(NAME_LIMIT);
    NameStart(NAME_LIMIT - 1);
  }

  // ----- Storage -----

  const TICK_AT: nat := 17

  function TickOf(data: bytes): uint64
    requires |data| >= TICK_AT + 8
  {
    Uint64At(data[TICK_AT..TICK_AT + 8])
  }

  /** A tick that is already archived is skipped, whatever its content. */
  function Archived(archive: map<string, bytes>, data: bytes): map<string, bytes> {
    if |data| < TICK_AT + 8 || Name(TickOf(data)) in archive then archive
    else archive[Name(TickOf(data)) := data]
  }

  /** A stored checkpoint is archived under the tick in bytes 17 to 24, unless that name is taken. */
  lemma ArchiveSays(archive: map<string, bytes>, data: bytes, tick: uint64)
    requires |data| >= 25 && data[17..25] == U64(tick)
    ensures
      var now := Archived(archive, data);
      now == if Name(tick) in archive then archive else archive[Name(tick) := data]
  {
    hide FromLE, U64;
    U64RoundTrip(tick);
  }

  /** How far a save gets: every step can fail; the last two only lose the archive copy. */
  datatype SaveRun = CreateFails | WriteFails | SyncFails | CloseFails | RenameFails | ArchiveFails | AllSucceed

  class FSProvider {
    var checkpoint: Option<bytes>
    var temp: Option<bytes>
    var archive: map<string, bytes>

    constructor ()
      ensures checkpoint == None && temp == None && archive == map[]
    {
      checkpoint, temp, archive := None, None, map[];
    }

    /** Temporary file, then rename: the checkpoint is the old one or the new one. */
    method SaveCheckpoint(state: bytes, run: SaveRun) returns (ok: bool)
      modifies this
      ensures ok <==> run.ArchiveFails? || run.AllSucceed?
      ensures checkpoint == if ok then Some(state) else old(checkpoint)
      ensures archive == if run.AllSucceed? then Archived(old(archive), state) else old(archive)
      ensures run.CreateFails? ==> temp == old(temp)
      ensures !run.CreateFails? ==> temp == None
    {
      if run.CreateFails? {
        return false;
      }
      temp := Some([]);
      if run.WriteFails? {
        temp := None;
        return false;
      }
      temp := Some(state);
      if run.SyncFails? || run.CloseFails? || run.RenameFails? {
        temp := None;
        return false;
      }
      checkpoint, temp := temp, None;
      ArchiveCheckpoint(state, run.AllSucceed?);
      ok := true;
    }

    method ArchiveCheckpoint(state: bytes, written: bool)
      modifies this`archive
      ensures archive == if written then Archived(old(archive), state) else old(archive)
    {
      if |state| < TICK_AT + 8 {
        return;
      }
      var name := Name(TickOf(state));
      if name in archive {
        return;
      }
      if written {
        archive := archive[name := state];
      }
    }
  }

  // ----- Listing a directory -----

  /** The directory's names, each once, in byte order. */
  ghost predicate IsListing(names: seq<string>, archive: map<string, bytes>) {
    Sorted(names, Before) && (set n | n in names) == archive.Keys
  }

  ghost predicate Sorted<T>(s: seq<T>, less: (T, T) -> bool) {
    forall i, j :: 0 <= i < j < |s| ==> less(s[i], s[j])
  }

  ghost predicate StrictOrder<T(!new)>(less: (T, T) -> bool) {
    && (forall x :: !less(x, x))
    && (forall x, y, z :: less(x, y) && less(y, z) ==> less(x, z))
  }

  lemma {:induction false} SortedIsUnique<T(!new)>(a: seq<T>, b: seq<T>, less: (T, T) -> bool)
    requires StrictOrder(less) && Sorted(a, less) && Sorted(b, less)
    requires forall x :: x in a <==> x in b
    ensures a == b
  {
    EmptyTogether(a, b);
    if a != [] {
      var m, n := |a| - 1, |b| - 1;
      assert a[m] in b && b[n] in a;
      assert a[m] == b[n];
      forall x
        ensures x in a[..m] <==> x in b[..n]
      {
        OthersAreBefore(a, less, x);
        OthersAreBefore(b, less, x);
      }
      SortedIsUnique(a[..m], b[..n], less);
    }
  }

  lemma EmptyTogether<T(!new)>(a: seq<T>, b: seq<T>)
    requires forall x :: x in a <==> x in b
    ensures a == [] <==> b == []
  {
    if a != [] {
      assert a[0] in b;
    }
    if b != [] {
      assert b[0] in a;
    }
  }

  lemma OthersAreBefore<T(!new)>(a: seq<T>, less: (T, T) -> bool, x: T)
    requires StrictOrder(less) && Sorted(a, less) && a != []
    ensures x in a[..|a| - 1] <==> x in a && x != a[|a| - 1]
  {
    if x in a && x != a[|a| - 1] {
      var i :| 0 <= i < |a| && a[i] == x;
      assert x == a[..|a| - 1][i];
    }
  }

  function SomeOf(saved: seq<bytes>): (files: seq<Option<bytes>>)
    ensures |files| == |saved|
  {
    seq(|saved|, i requires 0 <= i < |saved| => Some(saved[i]))
  }

  ghost predicate AllLong(saved: seq<bytes>) {
    forall k :: 0 <= k < |saved| ==> |saved[k]| >= TICK_AT + 8
  }

  /** The archive holds exactly these checkpoints, each under its tick's name. */
  ghost predicate Holds(archive: map<string, bytes>, saved: seq<bytes>)
    requires AllLong(saved)
  {
    && (forall k :: 0 <= k < |saved| ==> Name(TickOf(saved[k])) in archive)
    && (forall n :: n in archive ==> HeldAs(n, archive[n], saved))
  }

  ghost predicate HeldAs(name: string, data: bytes, saved: seq<bytes>)
    requires AllLong(saved)
  {
    exists k :: 0 <= k < |saved| && data == saved[k] && name == Name(TickOf(saved[k]))
  }

  predicate TickBefore(a: bytes, b: bytes) {
    |a| >= TICK_AT + 8 && |b| >= TICK_AT + 8 && TickOf(a) < TickOf(b)
  }

  predicate NameBefore(a: bytes, b: bytes) {
    |a| >= TICK_AT + 8 && |b| >= TICK_AT + 8 && Before(Name(TickOf(a)), Name(TickOf(b)))
  }

  lemma OrdersAreStrict()
    ensures StrictOrder(Before) && StrictOrder(TickBefore) && StrictOrder(NameBefore)
  {
    forall a, b, c
      ensures !Before(a, a)
      ensures Before(a, b) && Before(b, c) ==> Before(a, c)
    {
      BeforeIsStrict(a, b, c);
    }
    assert StrictOrder(Before);
    assert StrictOrder(TickBefore);
  }

  /** Archive content in listing order, as a sequence of checkpoints. */
  function Contents(names: seq<string>, archive: map<string, bytes>): (data: seq<bytes>)
    requires forall n :: n in names ==> n in archive
    ensures |data| == |names|
  {
    seq(|names|, i requires 0 <= i < |names| => archive[names[i]])
  }

  lemma ListedContents(names: seq<string>, archive: map<string, bytes>, saved: seq<bytes>)
    requires AllLong(saved) && Holds(archive, saved) && IsListing(names, archive)
    ensures
      var data := Contents(names, archive);
      && Sorted(data, NameBefore)
      && (forall x :: x in saved ==> x in data || exists y :: y in saved && y != x && TickOf(y) == TickOf(x))
      && (forall x :: x in data ==> x in saved)
  {
    hide Name, Before;
    var data := Contents(names, archive);
    forall i | 0 <= i < |data|
      ensures data[i] in saved && names[i] == Name(TickOf(data[i]))
    {
      assert names[i] in archive;
      assert HeldAs(names[i], archive[names[i]], saved);
    }
    forall x | x in saved
      ensures x in data || exists y :: y in saved && y != x && TickOf(y) == TickOf(x)
    {
      var k :| 0 <= k < |saved| && saved[k] == x;
      var n := Name(TickOf(x));
      assert n in archive;
      var i :| 0 <= i < |names| && names[i] == n;
      NamesAreDistinct(TickOf(data[i]), TickOf(x));
      if data[i] == x {
        assert data[i] in data;
      }
    }
  }

  lemma SameElements(data: seq<bytes>, saved: seq<bytes>)
    requires Sorted(saved, TickBefore)
    requires forall x :: x in saved ==> x in data || exists y :: y in saved && y != x && |x| >= TICK_AT + 8 && |y| >= TICK_AT + 8 && TickOf(y) == TickOf(x)
    requires forall x :: x in data ==> x in saved
    ensures forall x :: x in data <==> x in saved
  {
    forall x, y | x in saved && y in saved && y != x
      ensures TickBefore(x, y) || TickBefore(y, x)
    {
      var i :| 0 <= i < |saved| && saved[i] == x;
      var j :| 0 <= j < |saved| && saved[j] == y;
    }
  }

  // ----- From linked checkpoints to a verified directory -----

  lemma TickOfHeader(data: bytes)
    requires ParseCheckpointHeader(data).Ok?
    ensures |data| >= TICK_AT + 8 && ParseCheckpointHeader(data).value.header.meter.tick == TickOf(data)
  {
    hide ParsedLease, ParsedLineage;
  }

  lemma {:induction false} LinkedAscends(saved: seq<bytes>, c: Crypto)
    requires C.Linked(SomeOf(saved), c)
    ensures AllLong(saved) && Sorted(saved, TickBefore)
  {
    hide C.Linked;
    if saved != [] {
      var n := |saved| - 1;
      LinkedInit(saved, c);
      LinkedAscends(saved[..n], c);
      forall i | 0 <= i < n
        ensures TickBefore(saved[i], saved[n])
      {
        assert saved[i] == saved[..n][i] && saved[n - 1] == saved[..n][n - 1];
        assert i < n - 1 ==> TickBefore(saved[..n][i], saved[..n][n - 1]);
      }
    }
  }

  lemma LinkedInit(saved: seq<bytes>, c: Crypto)
    requires C.Linked(SomeOf(saved), c) && saved != []
    ensures C.Linked(SomeOf(saved[..|saved| - 1]), c)
    ensures |saved[|saved| - 1]| >= TICK_AT + 8
    ensures |saved| > 1 ==> TickBefore(saved[|saved| - 2], saved[|saved| - 1])
  {
    hide GoodSignature, ParseCheckpointHeader, TickOf;
    var files, n := SomeOf(saved), |saved| - 1;
    C.PrefixLinked(files, n, c);
    assert files[..n] == SomeOf(saved[..n]);
    assert C.Signed(files[n], c);
    TickOfHeader(saved[n]);
    if n > 0 {
      assert C.Follows(files[n - 1], files[n], c);
      assert C.Signed(files[n - 1], c);
      TickOfHeader(saved[n - 1]);
    }
  }

  /** A directory holding a linked history verifies exactly when the names of its ticks sort in
      the order of the ticks. */
  lemma DirectoryVerifiesIff(names: seq<string>, archive: map<string, bytes>, saved: seq<bytes>, c: Crypto)
    requires C.Linked(SomeOf(saved), c) && |saved| >= 2
    requires AllLong(saved) && Holds(archive, saved) && IsListing(names, archive)
    ensures C.Valid(SomeOf(Contents(names, archive)), c) <==> Sorted(saved, NameBefore)
    ensures Sorted(saved, NameBefore) ==> Contents(names, archive) == saved
  {
    hide C.Linked, C.Valid, Holds, Name, Before, TickOf;
    var data := Contents(names, archive);
    LinkedAscends(saved, c);
    ListedContents(names, archive, saved);
    SameElements(data, saved);
    OrdersAreStrict();
    if Sorted(saved, NameBefore) {
      SortedIsUnique(data, saved, NameBefore);
    }
    C.ValidIff(SomeOf(saved), c);
    if C.Valid(SomeOf(data), c) {
      AtLeastTwo(data, saved);
      C.ValidIff(SomeOf(data), c);
      LinkedAscends(data, c);
      SortedIsUnique(data, saved, TickBefore);
    }
  }

  lemma AtLeastTwo(data: seq<bytes>, saved: seq<bytes>)
    requires |saved| >= 2 && Sorted(saved, TickBefore)
    requires forall x :: x in data <==> x in saved
    ensures |data| >= 2
  {
    assert saved[0] in data && saved[1] in data;
    assert TickBefore(saved[0], saved[1]);
  }

  lemma TicksBelowLimitSort(saved: seq<bytes>)
    requires AllLong(saved) && Sorted(saved, TickBefore)
    requires forall k :: 0 <= k < |saved| ==> TickOf(saved[k]) < NAME_LIMIT
    ensures Sorted(saved, NameBefore)
  {
    hide Name, TickOf;
    forall i, j | 0 <= i < j < |saved|
      ensures NameBefore(saved[i], saved[j])
    {
      assert TickBefore(saved[i], saved[j]);
      NamesSortAsTicks(TickOf(saved[i]), TickOf(saved[j]));
    }
  }

  // ----- Runs over several hosts -----

  datatype Host = Host(checkpoint: Option<bytes>, archive: map<string, bytes>)

  datatype Running = Running(host: nat, v: Value)

  /** The hosts, the running agent if any, and every checkpoint saved so far. */
  datatype World = World(hosts: seq<Host>, running: Option<Running>, saved: seq<bytes>)

  /** A start on a host from whatever checkpoint it has; a copy of another host's checkpoint that
      is then staged and resumed from; a tick, which leaves some budget; a save; a stop, with
      everything since the last save lost. */
  datatype Event =
    | Launch(host: nat, blank: Meter)
    | Resume(source: nat, host: nat, blank: Meter)
    | Tick(budget: int64)
    | Save(state: bytes)
    | Stop

  function Started(m: Meter): Value { Value(m, None, Zeros(32)) }

  function Stored(h: Host, data: bytes): Host {
    Host(Some(data), Archived(h.archive, data))
  }

  function Step(w: World, c: Crypto, id: Identity, e: Event): World {
    match e
    case Launch(h, blank) =>
      if h >= |w.hosts| then w
      else w.(running := Some(Running(h, Loaded(Started(blank), c, w.hosts[h].checkpoint).0)))
    case Resume(s, h, blank) =>
      if s >= |w.hosts| || h >= |w.hosts| || w.hosts[s].checkpoint.None? then w
      else
        var hosts := w.hosts[h := Stored(w.hosts[h], w.hosts[s].checkpoint.value)];
        var (v, outcome) := Loaded(Started(blank), c, hosts[h].checkpoint);
        w.(hosts := hosts, running := if outcome.Ok? then Some(Running(h, v)) else None)
    case Tick(budget) =>
      if w.running.None? then w
      else
        var v := w.running.value.v;
        w.(running := Some(w.running.value.(v := v.(meter := v.meter.(tick := Inc64(v.meter.tick), budget := budget)))))
    case Save(state) =>
      if w.running.None? || w.running.value.host >= |w.hosts| then w
      else
        var r := w.running.value;
        var data := Built(r.v, c, Some(id), state);
        World(w.hosts[r.host := Stored(w.hosts[r.host], data)],
              Some(r.(v := AfterBuild(r.v, c, Some(id), state))), w.saved + [data])
    case Stop => w.(running := None)
  }

  function Latest(w: World): Option<bytes> {
    if w.saved == [] then None else Some(w.saved[|w.saved| - 1])
  }

  /** Starts and resumes are from the latest checkpoint, with the binary that made it, and one at
      a time; every save is at a later tick than the last. */
  ghost predicate Allowed(w: World, c: Crypto, id: Identity, e: Event) {
    match e
    case Launch(h, blank) =>
      && w.running.None? && |blank.wasmHash| == 32 && blank.tick == 0
      && h < |w.hosts| && w.hosts[h].checkpoint == Latest(w)
      && (Latest(w).Some? && ParseCheckpointHeader(Latest(w).value).Ok? ==>
            ParseCheckpointHeader(Latest(w).value).value.header.meter.wasmHash == blank.wasmHash)
    case Resume(s, h, blank) =>
      && w.running.None? && |blank.wasmHash| == 32 && blank.tick == 0
      && s < |w.hosts| && h < |w.hosts| && w.saved != [] && w.hosts[s].checkpoint == Latest(w)
    case Tick(budget) => w.running.Some? ==> w.running.value.v.meter.tick + 1 < NAME_LIMIT
    case Save(_) =>
      w.running.Some? && w.saved != [] && |Latest(w).value| >= TICK_AT + 8 ==>
        TickOf(Latest(w).value) < w.running.value.v.meter.tick
    case Stop => true
  }

  /** What is saved has a non-negative budget and price. */
  predicate Solvent(w: World, e: Event) {
    e.Save? && w.running.Some? && w.running.value.host < |w.hosts| ==>
      w.running.value.v.meter.budget >= 0 && w.running.value.v.meter.price >= 0
  }

  predicate SolventRun(w: World, c: Crypto, id: Identity, es: seq<Event>)
    decreases |es|
  {
    es == [] || (Solvent(w, es[0]) && SolventRun(Step(w, c, id, es[0]), c, id, es[1..]))
  }

  ghost predicate AllowedRun(w: World, c: Crypto, id: Identity, es: seq<Event>)
    decreases |es|
  {
    es == [] || (Allowed(w, c, id, es[0]) && AllowedRun(Step(w, c, id, es[0]), c, id, es[1..]))
  }

  function Run(w: World, c: Crypto, id: Identity, es: seq<Event>): World
    decreases |es|
  {
    if es == [] then w else Run(Step(w, c, id, es[0]), c, id, es[1..])
  }

  function Initially(hosts: nat): World {
    World(seq(hosts, _ => Host(None, map[])), None, [])
  }

  /** cp of every host's history directory into one; a later copy overwrites. */
  function Merged(hosts: seq<Host>): map<string, bytes> {
    if hosts == [] then map[] else Merged(hosts[..|hosts| - 1]) + hosts[|hosts| - 1].archive
  }

  /** The saved checkpoints form a linked history under one key, within the name limit. */
  ghost predicate SavedInv(saved: seq<bytes>, c: Crypto, id: Identity) {
    && C.Linked(SomeOf(saved), c)
    && AllLong(saved)
    && (forall k :: 0 <= k < |saved| ==> TickOf(saved[k]) < NAME_LIMIT)
    && (saved != [] ==> UnderKey(saved[|saved| - 1], c, id))
  }

  ghost predicate UnderKey(data: bytes, c: Crypto, id: Identity) {
    C.Signed(Some(data), c) && C.HeaderOf(Some(data)).lineage.value.publicKey == id.publicKey
  }

  /** The running agent will chain to the last saved checkpoint. */
  ghost predicate Continues(v: Value, saved: seq<bytes>, c: Crypto) {
    && v.WellFormed() && v.meter.tick < NAME_LIMIT
    && v.prevHash == (if saved == [] then Zeros(32) else c.hash(saved[|saved| - 1]))
  }

  ghost predicate RunningInv(w: World, c: Crypto) {
    w.running.Some? ==> w.running.value.host < |w.hosts| && Continues(w.running.value.v, w.saved, c)
  }

  /** Archives hold saved checkpoints only, and every saved checkpoint is in one of them. */
  ghost predicate ArchivesInv(hosts: seq<Host>, saved: seq<bytes>)
    requires AllLong(saved)
  {
    && (forall h, n :: 0 <= h < |hosts| && n in hosts[h].archive ==> HeldAs(n, hosts[h].archive[n], saved))
    && (forall k :: 0 <= k < |saved| ==> Kept(hosts, saved[k]))
  }

  ghost predicate Kept(hosts: seq<Host>, data: bytes)
    requires |data| >= TICK_AT + 8
  {
    exists h :: 0 <= h < |hosts| && Name(TickOf(data)) in hosts[h].archive
  }

  ghost predicate Inv(w: World, c: Crypto, id: Identity) {
    AllLong(w.saved) && SavedInv(w.saved, c, id) && RunningInv(w, c) && ArchivesInv(w.hosts, w.saved)
  }

  lemma {:induction false} MergedHolds(hosts: seq<Host>, n: string)
    ensures n in Merged(hosts) <==> exists h :: 0 <= h < |hosts| && n in hosts[h].archive
    ensures n in Merged(hosts) ==> exists h :: 0 <= h < |hosts| && n in hosts[h].archive && Merged(hosts)[n] == hosts[h].archive[n]
  {
    if hosts != [] {
      var m := |hosts| - 1;
      MergedHolds(hosts[..m], n);
      if n in hosts[m].archive {
      } else if n in Merged(hosts[..m]) {
        var h :| 0 <= h < m && n in hosts[..m][h].archive && Merged(hosts[..m])[n] == hosts[..m][h].archive[n];
        assert hosts[h] == hosts[..m][h];
      } else {
        assert forall h :: 0 <= h < m ==> hosts[h] == hosts[..m][h];
      }
    }
  }

  lemma MergedHoldsSaved(hosts: seq<Host>, saved: seq<bytes>)
    requires AllLong(saved) && ArchivesInv(hosts, saved)
    ensures Holds(Merged(hosts), saved)
  {
    hide Merged, Name, TickOf;
    forall k | 0 <= k < |saved|
      ensures Name(TickOf(saved[k])) in Merged(hosts)
    {
      assert Kept(hosts, saved[k]);
      MergedHolds(hosts, Name(TickOf(saved[k])));
    }
    forall n | n in Merged(hosts)
      ensures HeldAs(n, Merged(hosts)[n], saved)
    {
      MergedHolds(hosts, n);
    }
  }

  lemma BuiltIsSigned(v: Value, c: Crypto, id: Identity, state: bytes)
    requires c.Valid() && id.Valid(c) && v.WellFormed() && v.meter.budget >= 0 && v.meter.price >= 0
    ensures
      var file := Some(Built(v, c, Some(id), state));
      && C.Signed(file, c)
      && C.HeaderOf(file).meter == v.meter
      && C.HeaderOf(file).lineage.value.prevHash == v.prevHash
      && C.HeaderOf(file).lineage.value.publicKey == id.publicKey
  {
    hide HeaderBytes, ParseCheckpointHeader, Unsigned;
    var h := BuiltHeader(v, c, Some(id), state);
    ParseOfBytes(h, state);
    SplitAtSignature(v, c, id, state);
  }

  /** What one save adds is a signed successor of the last checkpoint. */
  lemma SaveLinks(v: Value, saved: seq<bytes>, c: Crypto, id: Identity, state: bytes)
    requires c.Valid() && id.Valid(c) && SavedInv(saved, c, id) && Continues(v, saved, c)
    requires v.meter.budget >= 0 && v.meter.price >= 0
    requires saved != [] ==> TickOf(saved[|saved| - 1]) < v.meter.tick
    ensures SavedInv(saved + [Built(v, c, Some(id), state)], c, id)
    ensures Continues(AfterBuild(v, c, Some(id), state), saved + [Built(v, c, Some(id), state)], c)
  {
    hide Unsigned, HeaderBytes, ParseCheckpointHeader, Built, TickOf, GoodSignature;
    var data := Built(v, c, Some(id), state);
    BuiltIsSigned(v, c, id, state);
    TickOfHeader(data);
    var n := |saved|;
    var files := SomeOf(saved + [data]);
    assert forall k :: 0 <= k < n ==> files[k] == SomeOf(saved)[k];
    if n > 0 {
      assert C.Signed(SomeOf(saved)[n - 1], c);
      TickOfHeader(saved[n - 1]);
      assert C.Follows(files[n - 1], files[n], c);
    }
  }

  lemma ArchivedGrows(archive: map<string, bytes>, data: bytes)
    requires |data| >= TICK_AT + 8
    ensures
      var next := Archived(archive, data);
      && Name(TickOf(data)) in next
      && (forall n :: n in archive ==> n in next)
      && (forall n :: n in next ==> (n in archive && next[n] == archive[n]) || (n == Name(TickOf(data)) && next[n] == data))
  {
    hide Name, TickOf;
  }

  lemma StoringKeeps(hosts: seq<Host>, saved: seq<bytes>, host: nat, data: bytes, now: seq<bytes>)
    requires AllLong(saved) && ArchivesInv(hosts, saved) && host < |hosts| && |data| >= TICK_AT + 8
    requires now == saved + [data] || (now == saved && data in saved)
    ensures AllLong(now) && ArchivesInv(hosts[host := Stored(hosts[host], data)], now)
  {
    hide Name, TickOf, Archived, HeldAs;
    var next := hosts[host := Stored(hosts[host], data)];
    ArchivedGrows(hosts[host].archive, data);
    assert forall k :: 0 <= k < |saved| ==> now[k] == saved[k];
    forall h, n | 0 <= h < |next| && n in next[h].archive
      ensures HeldAs(n, next[h].archive[n], now)
    {
      if n in hosts[h].archive && next[h].archive[n] == hosts[h].archive[n] {
        HeldStill(n, hosts[h].archive[n], saved, now);
      } else {
        HeldNew(data, saved, now);
      }
    }
    forall k | 0 <= k < |now|
      ensures Kept(next, now[k])
    {
      if k < |saved| {
        assert Kept(hosts, saved[k]);
        var h :| 0 <= h < |hosts| && Name(TickOf(saved[k])) in hosts[h].archive;
        assert Name(TickOf(saved[k])) in next[h].archive;
      } else {
        assert Name(TickOf(data)) in next[host].archive;
      }
    }
  }

  lemma HeldStill(n: string, data: bytes, saved: seq<bytes>, now: seq<bytes>)
    requires AllLong(saved) && AllLong(now) && |saved| <= |now| && now[..|saved|] == saved
    requires HeldAs(n, data, saved)
    ensures HeldAs(n, data, now)
  {
    hide Name, TickOf;
    var k :| 0 <= k < |saved| && data == saved[k] && n == Name(TickOf(saved[k]));
    assert now[k] == now[..|saved|][k];
  }

  lemma HeldNew(data: bytes, saved: seq<bytes>, now: seq<bytes>)
    requires AllLong(now) && |data| >= TICK_AT + 8
    requires now == saved + [data] || (now == saved && data in saved)
    ensures HeldAs(Name(TickOf(data)), data, now)
  {
    hide Name, TickOf;
    assert now == saved + [data] ==> now[|saved|] == data;
    var k :| 0 <= k < |now| && now[k] == data;
  }

  /** Loading the latest checkpoint with the binary that made it continues its chain; so does
      starting where there is none. */
  lemma LoadContinues(saved: seq<bytes>, c: Crypto, id: Identity, m: Meter)
    requires c.Valid() && |m.wasmHash| == 32 && m.tick == 0
    requires saved != [] ==> EndsUnderKey(saved, c, id)
    ensures
      var last := if saved == [] then None else Some(saved[|saved| - 1]);
      var (v, outcome) := Loaded(Started(m), c, last);
      && (outcome.Ok? ==> Continues(v, saved, c))
      && (last.Some? ==> ParseCheckpointHeader(last.value).Ok?)
      && (outcome.Ok? <==>
            last.Some? ==> ParseCheckpointHeader(last.value).value.header.meter.wasmHash == m.wasmHash)
  {
    hide ParseCheckpointHeader, GoodSignature, TickOf;
    if saved != [] {
      TickOfHeader(saved[|saved| - 1]);
    }
  }

  /** The last checkpoint is a signed one under the agent's key, within the name limit. */
  ghost predicate EndsUnderKey(saved: seq<bytes>, c: Crypto, id: Identity)
    requires saved != []
  {
    var last := saved[|saved| - 1];
    UnderKey(last, c, id) && |last| >= TICK_AT + 8 && TickOf(last) < NAME_LIMIT
  }

  lemma SavedEndsUnderKey(saved: seq<bytes>, c: Crypto, id: Identity)
    requires SavedInv(saved, c, id) && saved != []
    ensures EndsUnderKey(saved, c, id)
  {
    hide UnderKey, TickOf, C.Linked;
  }

  lemma SaveKeepsInv(w: World, c: Crypto, id: Identity, state: bytes)
    requires c.Valid() && id.Valid(c) && Inv(w, c, id) && w.running.Some?
    requires Allowed(w, c, id, Save(state)) && Solvent(w, Save(state))
    ensures Inv(Step(w, c, id, Save(state)), c, id)
  {
    hide Built, AfterBuild, SavedInv, ArchivesInv, TickOf, Stored;
    var r := w.running.value;
    var data := Built(r.v, c, Some(id), state);
    SaveLinks(r.v, w.saved, c, id, state);
    LongFromInv(w.saved + [data], c, id);
    assert (w.saved + [data])[|w.saved|] == data;
    StoringKeeps(w.hosts, w.saved, r.host, data, w.saved + [data]);
  }

  lemma LongFromInv(saved: seq<bytes>, c: Crypto, id: Identity)
    requires SavedInv(saved, c, id)
    ensures AllLong(saved)
  {
  }

  lemma StepKeepsInv(w: World, c: Crypto, id: Identity, e: Event)
    requires c.Valid() && id.Valid(c) && Inv(w, c, id) && Allowed(w, c, id, e) && Solvent(w, e)
    ensures Inv(Step(w, c, id, e), c, id)
  {
    hide Loaded, Built, AfterBuild, Stored, SavedInv, ArchivesInv, TickOf, ParseCheckpointHeader, EndsUnderKey;
    if w.saved != [] {
      SavedEndsUnderKey(w.saved, c, id);
    }
    match e {
      case Launch(h, blank) =>
        LoadContinues(w.saved, c, id, blank);
      case Resume(s, h, blank) =>
        LoadContinues(w.saved, c, id, blank);
        StoringKeeps(w.hosts, w.saved, h, Latest(w).value, w.saved);
        StoredCheckpoint(w.hosts[h], Latest(w).value);
      case Tick(_) =>
      case Save(state) =>
        if w.running.Some? {
          SaveKeepsInv(w, c, id, state);
        }
      case Stop =>
    }
  }

  lemma StoredCheckpoint(h: Host, data: bytes)
    ensures Stored(h, data).checkpoint == Some(data)
  {
  }

  lemma {:induction false} RunKeepsInv(w: World, c: Crypto, id: Identity, es: seq<Event>)
    requires c.Valid() && id.Valid(c) && Inv(w, c, id) && AllowedRun(w, c, id, es) && SolventRun(w, c, id, es)
    ensures Inv(Run(w, c, id, es), c, id)
    decreases |es|
  {
    hide Inv, Step, Allowed, Solvent;
    if es != [] {
      StepKeepsInv(w, c, id, es[0]);
      RunKeepsInv(Step(w, c, id, es[0]), c, id, es[1..]);
    }
  }

  /** After any such run over any number of hosts, the merged archives in name order are all the
      saved checkpoints in the order they were saved, and the chain verifies. */
  lemma MergedHistoryVerifies(hosts: nat, c: Crypto, id: Identity, es: seq<Event>, names: seq<string>)
    requires c.Valid() && id.Valid(c) && AllowedRun(Initially(hosts), c, id, es) && SolventRun(Initially(hosts), c, id, es)
    requires IsListing(names, Merged(Run(Initially(hosts), c, id, es).hosts))
    ensures
      var w := Run(Initially(hosts), c, id, es);
      Contents(names, Merged(w.hosts)) == w.saved && (w.saved != [] ==> C.Valid(SomeOf(w.saved), c))
  {
    hide Run, AllowedRun, SolventRun, Merged, Step, C.Valid, C.Linked;
    assert Inv(Initially(hosts), c, id) by { InitiallyInv(hosts, c, id); }
    RunKeepsInv(Initially(hosts), c, id, es);
    var w := Run(Initially(hosts), c, id, es);
    MergedHoldsSaved(w.hosts, w.saved);
    HistoryListsInOrder(names, Merged(w.hosts), w.saved, c, id);
  }

  lemma InitiallyInv(hosts: nat, c: Crypto, id: Identity)
    ensures Inv(Initially(hosts), c, id)
  {
  }

  lemma ListsInOrder(names: seq<string>, archive: map<string, bytes>, saved: seq<bytes>)
    requires AllLong(saved) && Sorted(saved, TickBefore) && Holds(archive, saved) && IsListing(names, archive)
    requires forall k :: 0 <= k < |saved| ==> TickOf(saved[k]) < NAME_LIMIT
    ensures Contents(names, archive) == saved
  {
    hide Holds, NameBefore, TickBefore, Name, Before, TickOf;
    TicksBelowLimitSort(saved);
    ListedContents(names, archive, saved);
    SameElements(Contents(names, archive), saved);
    OrdersAreStrict();
    SortedIsUnique(Contents(names, archive), saved, NameBefore);
  }

  lemma HistoryListsInOrder(names: seq<string>, archive: map<string, bytes>, saved: seq<bytes>, c: Crypto, id: Identity)
    requires AllLong(saved) && SavedInv(saved, c, id) && Holds(archive, saved) && IsListing(names, archive)
    ensures Contents(names, archive) == saved && (saved != [] ==> C.Valid(SomeOf(saved), c))
  {
    hide Holds, TickOf, C.Linked, C.Valid, Sorted;
    LinkedAscends(saved, c);
    ListsInOrder(names, archive, saved);
    if |saved| == 1 {
      LoneFileVerifies(saved, c);
    } else if |saved| > 1 {
      C.ValidIff(SomeOf(saved), c);
    }
  }

  lemma LoneFileVerifies(saved: seq<bytes>, c: Crypto)
    requires |saved| == 1 && C.Linked(SomeOf(saved), c)
    ensures C.Valid(SomeOf(saved), c)
  {
    hide C.Valid, GoodSignature, ParseCheckpointHeader;
    assert SomeOf(saved) == [Some(saved[0])];
    assert C.Signed(SomeOf(saved)[0], c);
    C.SingleFileValidIff(Some(saved[0]), c);
  }

  // ----- Negative budgets -----

  /** What holds whatever the budgets are: ticks ascend within the limit, and the archives hold
      exactly what was saved. */
  ghost predicate Archives(w: World) {
    && AllLong(w.saved) && Sorted(w.saved, TickBefore)
    && (forall k :: 0 <= k < |w.saved| ==> TickOf(w.saved[k]) < NAME_LIMIT)
    && ArchivesInv(w.hosts, w.saved)
    && (w.running.Some? ==>
          w.running.value.host < |w.hosts| && w.running.value.v.WellFormed() && w.running.value.v.meter.tick < NAME_LIMIT)
  }

  lemma BuiltTick(v: Value, c: Crypto, id: Identity, state: bytes)
    requires c.Valid() && id.Valid(c) && v.WellFormed()
    ensures |Built(v, c, Some(id), state)| >= TICK_AT + 8 && TickOf(Built(v, c, Some(id), state)) == v.meter.tick
    ensures AfterBuild(v, c, Some(id), state).WellFormed() && AfterBuild(v, c, Some(id), state).meter == v.meter
    ensures
      ParseCheckpointHeader(Built(v, c, Some(id), state)).Ok? <==> v.meter.budget >= 0 && v.meter.price >= 0
  {
    hide MeterBytes, ParseCheckpointHeader, LeaseBytes, LineageBytes;
    var h := BuiltHeader(v, c, Some(id), state);
    ParseOfBytes(h, state);
    var tail := LeaseBytes(h.lease) + LineageBytes(h.lineage.value) + state;
    MeterBytesParse(VERSION4, v.meter, tail);
    assert Built(v, c, Some(id), state) == MeterBytes(VERSION4, v.meter) + tail;
  }

  lemma LoadStaysInLimit(m: Meter, c: Crypto, stored: Option<bytes>)
    requires c.Valid() && |m.wasmHash| == 32 && m.tick == 0
    requires stored.Some? ==> |stored.value| >= TICK_AT + 8 && TickOf(stored.value) < NAME_LIMIT
    ensures Loaded(Started(m), c, stored).0.WellFormed() && Loaded(Started(m), c, stored).0.meter.tick < NAME_LIMIT
  {
    hide ParseCheckpointHeader, GoodSignature, TickOf;
    if stored.Some? && ParseCheckpointHeader(stored.value).Ok? {
      TickOfHeader(stored.value);
    }
  }

  lemma StepKeepsArchives(w: World, c: Crypto, id: Identity, e: Event)
    requires c.Valid() && id.Valid(c) && Archives(w) && Allowed(w, c, id, e)
    ensures Archives(Step(w, c, id, e))
  {
    hide Loaded, Built, AfterBuild, Stored, ArchivesInv, TickOf, ParseCheckpointHeader, Sorted;
    match e {
      case Launch(h, blank) =>
        LoadStaysInLimit(blank, c, Latest(w));
      case Resume(s, h, blank) =>
        LoadStaysInLimit(blank, c, Latest(w));
        StoringKeeps(w.hosts, w.saved, h, Latest(w).value, w.saved);
        StoredCheckpoint(w.hosts[h], Latest(w).value);
      case Tick(_) =>
      case Save(state) =>
        if w.running.Some? {
          SaveKeepsArchives(w, c, id, state);
        }
      case Stop =>
    }
  }

  lemma SaveKeepsArchives(w: World, c: Crypto, id: Identity, state: bytes)
    requires c.Valid() && id.Valid(c) && Archives(w) && Allowed(w, c, id, Save(state)) && w.running.Some?
    ensures Archives(Step(w, c, id, Save(state)))
  {
    hide Built, AfterBuild, ArchivesInv, TickOf, Stored, Sorted;
    var r := w.running.value;
    var data := Built(r.v, c, Some(id), state);
    BuiltTick(r.v, c, id, state);
    StoringKeeps(w.hosts, w.saved, r.host, data, w.saved + [data]);
    if w.saved == [] {
      LoneIsSorted(data);
      assert w.saved + [data] == [data];
    } else {
      AscendsByOne(w.saved, data);
    }
  }

  lemma LoneIsSorted(data: bytes)
    ensures Sorted([data], TickBefore)
  {
  }

  lemma {:induction false} RunKeepsArchives(w: World, c: Crypto, id: Identity, es: seq<Event>)
    requires c.Valid() && id.Valid(c) && Archives(w) && AllowedRun(w, c, id, es)
    ensures Archives(Run(w, c, id, es)) && w.saved <= Run(w, c, id, es).saved
    decreases |es|
  {
    hide Archives, Allowed, Loaded, Built;
    if es != [] {
      StepKeepsArchives(w, c, id, es[0]);
      RunKeepsArchives(Step(w, c, id, es[0]), c, id, es[1..]);
    }
  }

  /** One save with a negative budget or price leaves a file that nothing can parse. */
  lemma {:induction false} InsolventSaveStays(w: World, c: Crypto, id: Identity, es: seq<Event>) returns (k: nat)
    requires c.Valid() && id.Valid(c) && Archives(w) && AllowedRun(w, c, id, es) && !SolventRun(w, c, id, es)
    ensures k < |Run(w, c, id, es).saved| && ParseCheckpointHeader(Run(w, c, id, es).saved[k]).Err?
    decreases |es|
  {
    hide Allowed, Loaded, Built, ParseCheckpointHeader, Stored, ArchivesInv, Sorted, TickOf;
    var u := Step(w, c, id, es[0]);
    StepKeepsArchives(w, c, id, es[0]);
    if Solvent(w, es[0]) {
      k := InsolventSaveStays(u, c, id, es[1..]);
    } else {
      k := |w.saved|;
      BuiltTick(w.running.value.v, c, id, es[0].state);
      RunKeepsArchives(u, c, id, es[1..]);
      assert u.saved[k] == Run(u, c, id, es[1..]).saved[k];
    }
  }

  /** Of all such runs that save anything, exactly those verify that never save a negative budget
      or price; the merged directory holds every saved file in either case. */
  lemma MergedHistoryVerifiesIff(hosts: nat, c: Crypto, id: Identity, es: seq<Event>, names: seq<string>)
    requires c.Valid() && id.Valid(c) && AllowedRun(Initially(hosts), c, id, es)
    requires Run(Initially(hosts), c, id, es).saved != []
    requires IsListing(names, Merged(Run(Initially(hosts), c, id, es).hosts))
    ensures
      var w := Run(Initially(hosts), c, id, es);
      Contents(names, Merged(w.hosts)) == w.saved
      && (C.Valid(SomeOf(w.saved), c) <==> SolventRun(Initially(hosts), c, id, es))
  {
    hide Run, AllowedRun, SolventRun, Merged, Step, C.Valid, ParseCheckpointHeader, ArchivesInv, Holds, IsListing;
    InitiallyArchives(hosts);
    RunKeepsArchives(Initially(hosts), c, id, es);
    var w := Run(Initially(hosts), c, id, es);
    MergedHoldsSaved(w.hosts, w.saved);
    ListsInOrder(names, Merged(w.hosts), w.saved);
    if SolventRun(Initially(hosts), c, id, es) {
      MergedHistoryVerifies(hosts, c, id, es, names);
    } else {
      var k := InsolventSaveStays(Initially(hosts), c, id, es);
      C.UnreadableFails(SomeOf(w.saved), k, c);
    }
  }

  lemma InitiallyArchives(hosts: nat)
    ensures Archives(Initially(hosts))
  {
  }

  // ----- What the conditions are for -----

  /** A save at a tick that is already archived: only the checkpoint changes. */
  lemma SecondStore(h: Host, first: bytes, second: bytes, third: bytes)
    requires |first| >= TICK_AT + 8 && |second| >= TICK_AT + 8 && TickOf(first) == TickOf(second)
    requires Name(TickOf(first)) in h.archive
    ensures Stored(Stored(h, second), third) == Stored(h, third)
  {
    hide Name, TickOf;
  }

  lemma AscendsByOne(saved: seq<bytes>, data: bytes)
    requires AllLong(saved) && saved != [] && Sorted(saved, TickBefore)
    requires TickBefore(saved[|saved| - 1], data)
    ensures Sorted(saved + [data], TickBefore)
  {
    hide TickOf;
    var n := |saved| - 1;
    assert forall i :: 0 <= i < n ==> TickBefore(saved[i], saved[n]);
  }

  /** A signed checkpoint of a later tick, chained to `second` where `saved` ends otherwise. */
  lemma ChainedElsewhere(saved: seq<bytes>, second: bytes, third: bytes, c: Crypto, id: Identity)
    requires SavedInv(saved, c, id) && saved != [] && UnderKey(third, c, id)
    requires TickBefore(saved[|saved| - 1], third)
    requires C.HeaderOf(Some(third)).lineage.value.prevHash == c.hash(second)
    ensures C.Valid(SomeOf(saved + [third]), c) <==> c.hash(second) == c.hash(saved[|saved| - 1])
  {
    hide C.Valid, C.Linked, GoodSignature, ParseCheckpointHeader, TickOf;
    var n := |saved|;
    var files := SomeOf(saved + [third]);
    assert files[..n] == SomeOf(saved) && files[..n + 1] == files;
    assert files[n] == Some(third) && files[n - 1] == Some(saved[n - 1]);
    C.ValidIff(files, c);
    C.LinkedStep(files, n, c);
    TickOfHeader(third);
    TickOfHeader(saved[n - 1]);
  }

  /** Saving twice at one tick: the archive skips the second file, but the next checkpoint is
      chained to it. The merged directory then verifies exactly if the two files hash alike. */
  lemma SecondSaveAtATick(w: World, c: Crypto, id: Identity, names: seq<string>,
                          again: bytes, budget: int64, later: bytes)
    requires c.Valid() && id.Valid(c) && Inv(w, c, id)
    requires w.running.Some? && w.saved != [] && TickOf(w.saved[|w.saved| - 1]) == w.running.value.v.meter.tick
    requires Name(w.running.value.v.meter.tick) in w.hosts[w.running.value.host].archive
    requires w.running.value.v.meter.budget >= 0 && w.running.value.v.meter.price >= 0 && budget >= 0
    requires w.running.value.v.meter.tick + 1 < NAME_LIMIT
    requires IsListing(names, Merged(SavedTwice(w, c, id, again, budget, later).hosts))
    ensures
      C.Valid(SomeOf(Contents(names, Merged(SavedTwice(w, c, id, again, budget, later).hosts))), c)
      <==> c.hash(Built(w.running.value.v, c, Some(id), again)) == c.hash(w.saved[|w.saved| - 1])
  {
    hide Built, ArchivesInv, TickOf, Name, Stored, Merged, C.Valid, C.Linked, Sorted, IsListing, SavedTwice, AfterBuild, UnderKey;
    var r := w.running.value;
    var v := Ahead(r.v, c, id, again, budget);
    var second, third := Built(r.v, c, Some(id), again), Built(v, c, Some(id), later);
    SecondIsSigned(r.v, c, id, again);
    SecondIsSigned(v, c, id, later);
    SavedTwiceStores(w, c, id, again, budget, later);
    var hosts := SavedTwice(w, c, id, again, budget, later).hosts;
    StoringKeeps(w.hosts, w.saved, r.host, third, w.saved + [third]);
    MergedHoldsSaved(hosts, w.saved + [third]);
    LinkedAscends(w.saved, c);
    AscendsByOne(w.saved, third);
    ListsInOrder(names, Merged(hosts), w.saved + [third]);
    ChainedElsewhere(w.saved, second, third, c, id);
  }

  /** The running agent after that save and one more tick. */
  function Ahead(v: Value, c: Crypto, id: Identity, again: bytes, budget: int64): (u: Value)
    requires v.meter.tick + 1 < NAME_LIMIT
  {
    AfterBuild(v, c, Some(id), again).(meter := v.meter.(tick := v.meter.tick + 1, budget := budget))
  }

  lemma SavedTwiceStores(w: World, c: Crypto, id: Identity, again: bytes, budget: int64, later: bytes)
    requires c.Valid() && id.Valid(c) && Inv(w, c, id)
    requires w.running.Some? && w.saved != [] && TickOf(w.saved[|w.saved| - 1]) == w.running.value.v.meter.tick
    requires Name(w.running.value.v.meter.tick) in w.hosts[w.running.value.host].archive
    requires w.running.value.v.meter.budget >= 0 && w.running.value.v.meter.price >= 0
    requires w.running.value.v.meter.tick + 1 < NAME_LIMIT
    ensures
      var r := w.running.value;
      var third := Built(Ahead(r.v, c, id, again, budget), c, Some(id), later);
      SavedTwice(w, c, id, again, budget, later).hosts == w.hosts[r.host := Stored(w.hosts[r.host], third)]
  {
    hide Built, TickOf, Name, Stored, SavedInv, ArchivesInv;
    var r := w.running.value;
    var third := Built(Ahead(r.v, c, id, again, budget), c, Some(id), later);
    SecondIsSigned(r.v, c, id, again);
    SecondStore(w.hosts[r.host], w.saved[|w.saved| - 1], Built(r.v, c, Some(id), again), third);
  }

  function SavedTwice(w: World, c: Crypto, id: Identity, again: bytes, budget: int64, later: bytes): World {
    Step(Step(Step(w, c, id, Save(again)), c, id, Tick(budget)), c, id, Save(later))
  }

  lemma SecondIsSigned(v: Value, c: Crypto, id: Identity, state: bytes)
    requires c.Valid() && id.Valid(c) && v.WellFormed() && v.meter.budget >= 0 && v.meter.price >= 0
    ensures
      var data := Built(v, c, Some(id), state);
      && UnderKey(data, c, id) && |data| >= TICK_AT + 8 && TickOf(data) == v.meter.tick
      && C.HeaderOf(Some(data)).lineage.value.prevHash == v.prevHash
    ensures AfterBuild(v, c, Some(id), state) == v.(prevHash := c.hash(Built(v, c, Some(id), state)))
    ensures AfterBuild(v, c, Some(id), state).WellFormed()
  {
    hide Built, ParseCheckpointHeader, TickOf, GoodSignature;
    BuiltIsSigned(v, c, id, state);
    TickOfHeader(Built(v, c, Some(id), state));
  }

  /** From the second checkpoint on the two files always differ, unless the last two checkpoints
      already collide: the second save names the first one as its predecessor. */
  lemma SecondSaveIsNeverTheSame(v: Value, saved: seq<bytes>, c: Crypto, id: Identity, again: bytes)
    requires c.Valid() && id.Valid(c) && SavedInv(saved, c, id) && Continues(v, saved, c)
    requires |saved| >= 2 && v.meter.budget >= 0 && v.meter.price >= 0
    requires c.TellsApart(saved[|saved| - 2], saved[|saved| - 1])
    ensures Built(v, c, Some(id), again) != saved[|saved| - 1]
  {
    hide Built, ParseCheckpointHeader, TickOf, GoodSignature;
    var n := |saved| - 1;
    SecondIsSigned(v, c, id, again);
    var files := SomeOf(saved);
    assert C.Follows(files[n - 1], files[n], c);
    LinkedAscends(saved, c);
    assert TickBefore(saved[n - 1], saved[n]);
  }

  // A run that gets there: one host launches, ticks and saves twice.

  function TwoSaves(blank: Meter, budget: int64, first: bytes, second: bytes): seq<Event> {
    [Launch(0, blank), Tick(budget), Save(first), Tick(budget), Save(second)]
  }

  /** The instance at its first and at its second save. */
  function AtOne(blank: Meter, budget: int64): Value { Started(blank.(tick := 1, budget := budget)) }

  function AtTwo(c: Crypto, id: Identity, blank: Meter, budget: int64, first: bytes): Value {
    AfterBuild(AtOne(blank, budget), c, Some(id), first).(meter := blank.(tick := 2, budget := budget))
  }

  const BARE := Host(None, map[])

  lemma TwoSavesRun(c: Crypto, id: Identity, blank: Meter, budget: int64, first: bytes, second: bytes)
    requires c.Valid() && id.Valid(c) && |blank.wasmHash| == 32 && blank.tick == 0 && blank.price >= 0 && budget >= 0
    ensures AllowedRun(Initially(1), c, id, TwoSaves(blank, budget, first, second))
    ensures SolventRun(Initially(1), c, id, TwoSaves(blank, budget, first, second))
    ensures
      var f := Built(AtOne(blank, budget), c, Some(id), first);
      var v := AtTwo(c, id, blank, budget, first);
      var g := Built(v, c, Some(id), second);
      Run(Initially(1), c, id, TwoSaves(blank, budget, first, second))
      == World([Stored(Stored(BARE, f), g)], Some(Running(0, AfterBuild(v, c, Some(id), second))), [f, g])
  {
    hide Built, AfterBuild, Stored, TickOf;
    var f, v := Built(AtOne(blank, budget), c, Some(id), first), AtTwo(c, id, blank, budget, first);
    BuiltTick(AtOne(blank, budget), c, id, first);
    var es := TwoSaves(blank, budget, first, second);
    var w0 := Initially(1);
    assert w0.hosts == [BARE];
    var w1 := World([BARE], Some(Running(0, Started(blank))), []);
    var w2 := World([BARE], Some(Running(0, AtOne(blank, budget))), []);
    var w3 := World([Stored(BARE, f)], Some(Running(0, AfterBuild(AtOne(blank, budget), c, Some(id), first))), [f]);
    var w4 := World([Stored(BARE, f)], Some(Running(0, v)), [f]);
    var w5 := World([Stored(Stored(BARE, f), Built(v, c, Some(id), second))],
                    Some(Running(0, AfterBuild(v, c, Some(id), second))), [f, Built(v, c, Some(id), second)]);
    assert Step(w0, c, id, es[0]) == w1;
    assert Step(w1, c, id, es[1]) == w2;
    assert Step(w2, c, id, es[2]) == w3;
    assert Step(w3, c, id, es[3]) == w4;
    assert Step(w4, c, id, es[4]) == w5;
    LastStep(w4, c, id, es[4..]);
    OneStep(w3, c, id, es[3..]);
    OneStep(w2, c, id, es[2..]);
    OneStep(w1, c, id, es[1..]);
    OneStep(w0, c, id, es);
  }

  lemma OneStep(w: World, c: Crypto, id: Identity, es: seq<Event>)
    requires es != [] && Allowed(w, c, id, es[0]) && Solvent(w, es[0])
    requires AllowedRun(Step(w, c, id, es[0]), c, id, es[1..]) && SolventRun(Step(w, c, id, es[0]), c, id, es[1..])
    ensures AllowedRun(w, c, id, es) && SolventRun(w, c, id, es)
    ensures Run(w, c, id, es) == Run(Step(w, c, id, es[0]), c, id, es[1..])
  {
    hide Step, Allowed, Solvent;
  }

  lemma LastStep(w: World, c: Crypto, id: Identity, es: seq<Event>)
    requires |es| == 1 && Allowed(w, c, id, es[0]) && Solvent(w, es[0])
    ensures AllowedRun(w, c, id, es) && SolventRun(w, c, id, es) && Run(w, c, id, es) == Step(w, c, id, es[0])
  {
    hide Step, Allowed, Solvent;
    assert es[1..] == [];
  }

  lemma StoredIsNamed(h: Host, data: bytes)
    requires |data| >= TICK_AT + 8
    ensures Name(TickOf(data)) in Stored(h, data).archive
  {
    ArchivedGrows(h.archive, data);
  }

  /** The failing case: after these two saves, a third one without a tick in between, a tick and a
      fourth save, no listing of the directory verifies, as long as the files concerned do not
      collide. */
  lemma SecondSaveBreaksARun(c: Crypto, id: Identity, blank: Meter, budget: int64, first: bytes, second: bytes,
                             again: bytes, later: bytes, names: seq<string>)
    requires c.Valid() && id.Valid(c) && |blank.wasmHash| == 32 && blank.tick == 0 && blank.price >= 0 && budget >= 0
    requires
      var w := Run(Initially(1), c, id, TwoSaves(blank, budget, first, second));
      && w.running.Some? && |w.saved| == 2
      && c.TellsApart(w.saved[0], w.saved[1])
      && c.TellsApart(Built(w.running.value.v, c, Some(id), again), w.saved[1])
      && IsListing(names, Merged(SavedTwice(w, c, id, again, budget, later).hosts))
    ensures
      var w := Run(Initially(1), c, id, TwoSaves(blank, budget, first, second));
      !C.Valid(SomeOf(Contents(names, Merged(SavedTwice(w, c, id, again, budget, later).hosts))), c)
  {
    hide Built, AfterBuild, Stored, TickOf, Name, Run, AllowedRun, SolventRun, SavedTwice, IsListing, Merged, C.Valid, Inv;
    var es := TwoSaves(blank, budget, first, second);
    TwoSavesRun(c, id, blank, budget, first, second);
    InitiallyInv(1, c, id);
    RunKeepsInv(Initially(1), c, id, es);
    var w := Run(Initially(1), c, id, es);
    ReadyForSecondSave(c, id, blank, budget, first, second);
    SecondSaveAtATick(w, c, id, names, again, budget, later);
    assert SavedInv(w.saved, c, id) && Continues(w.running.value.v, w.saved, c) by { InvParts(w, c, id); }
    SecondSaveIsNeverTheSame(w.running.value.v, w.saved, c, id, again);
  }

  lemma InvParts(w: World, c: Crypto, id: Identity)
    requires Inv(w, c, id) && w.running.Some?
    ensures SavedInv(w.saved, c, id) && Continues(w.running.value.v, w.saved, c)
  {
  }

  lemma ReadyForSecondSave(c: Crypto, id: Identity, blank: Meter, budget: int64, first: bytes, second: bytes)
    requires c.Valid() && id.Valid(c) && |blank.wasmHash| == 32 && blank.tick == 0 && blank.price >= 0 && budget >= 0
    ensures
      var w := Run(Initially(1), c, id, TwoSaves(blank, budget, first, second));
      && w.running.Some? && |w.saved| == 2 && |w.saved[1]| >= TICK_AT + 8
      && w.running.value.v.meter == blank.(tick := 2, budget := budget) && w.running.value.host == 0 && |w.hosts| == 1
      && TickOf(w.saved[1]) == 2 && Name(2) in w.hosts[0].archive
  {
    hide Built, AfterBuild, Stored, TickOf, Name, Run;
    TwoSavesRun(c, id, blank, budget, first, second);
    var f, v := Built(AtOne(blank, budget), c, Some(id), first), AtTwo(c, id, blank, budget, first);
    BuiltTick(AtOne(blank, budget), c, id, first);
    BuiltTick(v, c, id, second);
    StoredIsNamed(Stored(BARE, f), Built(v, c, Some(id), second));
  }

  /** At the limit the directory no longer lists the history in order. */
  lemma HistoryBreaksAtLimit(names: seq<string>, archive: map<string, bytes>, saved: seq<bytes>, c: Crypto)
    requires C.Linked(SomeOf(saved), c) && |saved| >= 2 && AllLong(saved)
    requires TickOf(saved[|saved| - 2]) == NAME_LIMIT - 1 && TickOf(saved[|saved| - 1]) == NAME_LIMIT
    requires Holds(archive, saved) && IsListing(names, archive)
    ensures !C.Valid(SomeOf(Contents(names, archive)), c)
  {
    hide C.Linked, C.Valid, Holds, IsListing, Name, Before, TickOf;
    var n := |saved| - 1;
    DirectoryVerifiesIff(names, archive, saved, c);
    NameOrderBreaksAtLimit();
    if Sorted(saved, NameBefore) {
      assert NameBefore(saved[n - 1], saved[n]);
      BeforeIsStrict(Name(NAME_LIMIT), Name(NAME_LIMIT - 1), Name(NAME_LIMIT));
    }
  }
}
