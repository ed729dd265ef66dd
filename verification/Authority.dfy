/** Epochs and leases (internal/authority) and the pre-tick lease check of the
    research runner (internal/runner/research). Times are nanoseconds. */
module Authority {
  import opened Bytes

  datatype Epoch = Epoch(major: uint64, generation: uint64) {

    predicate Supersedes(other: Epoch) {
      if major != other.major then major > other.major else generation > other.generation
    }
  }

  lemma SupersedesIsStrictTotalOrder(a: Epoch, b: Epoch, c: Epoch)
    ensures !a.Supersedes(a)
    ensures a.Supersedes(b) && b.Supersedes(c) ==> a.Supersedes(c)
    ensures a == b || a.Supersedes(b) || b.Supersedes(a)
    ensures !(a.Supersedes(b) && b.Supersedes(a))
  {
  }

  datatype State = ActiveOwner | HandoffInitiated | HandoffPending | Retired | RecoveryRequired

  predicate CanTick(s: State) { s == ActiveOwner }

  datatype Config = Config(duration: int, renewalWindow: real, grace: int) {

    predicate Valid() {
      duration > 0 && 0.0 < renewalWindow < 1.0 && grace >= 0
    }

    /** Remaining time at or below which a lease is renewed, truncated to a nanosecond. */
    function Threshold(): (t: int)
      ensures Valid() ==> 0 <= t < duration
    {
      var product := duration as real * renewalWindow;
      assert Valid() ==> 0.0 < product < duration as real by {
        if Valid() {
          ScaledDown(duration as real, renewalWindow);
        }
      }
      Truncated(product)
    }
  }

  lemma ScaledDown(d: real, w: real)
    requires d > 0.0 && 0.0 < w < 1.0
    ensures 0.0 < d * w < d
  {
    assert d * w > 0.0;
    assert d * (1.0 - w) > 0.0;
  }

  /** The conversion of a real to an integer: the fraction is dropped. */
  function Truncated(x: real): (t: int)
    ensures x >= 0.0 ==> t as real <= x < (t + 1) as real
  {
    if x >= 0.0 then x.Floor else -(-x).Floor
  }

  /** It is the window's share of the duration, less the fraction of a nanosecond. */
  lemma ThresholdSays(cfg: Config)
    requires cfg.Valid()
    ensures cfg.Threshold() as real <= cfg.duration as real * cfg.renewalWindow < (cfg.Threshold() + 1) as real
  {
    var product := cfg.duration as real * cfg.renewalWindow;
    assert product > 0.0 by {
      ScaledDown(cfg.duration as real, cfg.renewalWindow);
    }
    assert cfg.Threshold() == Truncated(product);
  }

  /** The fields of a lease; no expiry stands for the zero time. */
  datatype LeaseValue = LeaseValue(epoch: Epoch, expiry: Option<int>, state: State)

  predicate ExpiredWithGrace(l: LeaseValue, cfg: Config, now: int) {
    l.expiry.Some? && now > l.expiry.value + cfg.grace
  }

  predicate NeedsRenewal(l: LeaseValue, cfg: Config, now: int) {
    l.expiry.Some? && l.expiry.value - now <= cfg.Threshold()
  }

  function Granted(epoch: Epoch, cfg: Config, now: int): LeaseValue {
    LeaseValue(epoch, Some(now + cfg.duration), ActiveOwner)
  }

  /** Renew reads the clock once for the grace check and once for the new expiry. */
  function Renewed(l: LeaseValue, cfg: Config, checkedAt: int, grantedAt: int): (LeaseValue, bool) {
    if l.state != ActiveOwner || ExpiredWithGrace(l, cfg, checkedAt) then (l, false)
    else (Granted(l.epoch.(generation := Inc64(l.epoch.generation)), cfg, grantedAt), true)
  }

  function Validated(l: LeaseValue, cfg: Config, now: int): (LeaseValue, bool) {
    if l.state != ActiveOwner then (l, false)
    else if ExpiredWithGrace(l, cfg, now) then (l.(state := RecoveryRequired), false)
    else (l, true)
  }

  function HandedOff(l: LeaseValue): (LeaseValue, bool) {
    if l.state == ActiveOwner then (l.(state := HandoffInitiated), true) else (l, false)
  }

  function Reverted(l: LeaseValue): (LeaseValue, bool) {
    if l.state == HandoffInitiated then (l.(state := ActiveOwner), true) else (l, false)
  }

  function RetiredLease(l: LeaseValue): (LeaseValue, bool) {
    if l.state == HandoffInitiated || l.state == HandoffPending then (l.(state := Retired), true) else (l, false)
  }

  function Recovered(l: LeaseValue, cfg: Config, now: int): (LeaseValue, bool) {
    if l.state != RecoveryRequired then (l, false)
    else (Granted(Epoch(Inc64(l.epoch.major), 0), cfg, now), true)
  }

  // ----- The class -----

  class Lease {
    var epoch: Epoch
    var expiry: Option<int>
    var state: State
    const config: Config

    function View(): LeaseValue
      reads this
    {
      LeaseValue(epoch, expiry, state)
    }

    constructor (cfg: Config, now: int)
      ensures config == cfg && View() == LeaseValue(Epoch(0, 0), Some(now + cfg.duration), ActiveOwner)
    {
      epoch, expiry, state, config := Epoch(0, 0), Some(now + cfg.duration), ActiveOwner, cfg;
    }

    constructor FromMigration(sourceMajor: uint64, cfg: Config, now: int)
      ensures
        config == cfg && View() == LeaseValue(Epoch((sourceMajor + 1) % TWO_TO_THE_64, 0), Some(now + cfg.duration), ActiveOwner)
    {
      epoch, expiry, state, config := Epoch(Inc64(sourceMajor), 0), Some(now + cfg.duration), ActiveOwner, cfg;
    }

    constructor FromCheckpoint(epoch: Epoch, cfg: Config, now: int)
      ensures config == cfg && View() == LeaseValue(epoch, Some(now + cfg.duration), ActiveOwner)
    {
      this.epoch, expiry, state, config := epoch, Some(now + cfg.duration), ActiveOwner, cfg;
    }

    method Renew(checkedAt: int, grantedAt: int) returns (ok: bool)
      modifies this
      ensures (View(), ok) == Renewed(old(View()), config, checkedAt, grantedAt)
      ensures ok <==> old(state) == ActiveOwner && (old(expiry).Some? ==> checkedAt <= old(expiry).value + config.grace)
      ensures
        ok ==> View() == LeaseValue(Epoch(old(epoch).major, (old(epoch).generation + 1) % TWO_TO_THE_64),
                                    Some(grantedAt + config.duration), ActiveOwner)
      ensures !ok ==> View() == old(View())
    {
      if state != ActiveOwner {
        return false;
      }
      if ExpiredWithGrace(View(), config, checkedAt) {
        return false;
      }
      epoch := epoch.(generation := Inc64(epoch.generation));
      expiry := Some(grantedAt + config.duration);
      ok := true;
    }

    method ValidateForTick(now: int) returns (ok: bool)
      modifies this
      ensures (View(), ok) == Validated(old(View()), config, now)
    {
      if state != ActiveOwner {
        return false;
      }
      if ExpiredWithGrace(View(), config, now) {
        state := RecoveryRequired;
        return false;
      }
      ok := true;
    }

    method TransitionToHandoff() returns (ok: bool)
      modifies this
      ensures (View(), ok) == HandedOff(old(View()))
      ensures ok <==> old(state) == ActiveOwner
      ensures epoch == old(epoch) && expiry == old(expiry) && state == if ok then HandoffInitiated else old(state)
    {
      if state != ActiveOwner {
        return false;
      }
      state := HandoffInitiated;
      ok := true;
    }

    method TransitionToRetired() returns (ok: bool)
      modifies this
      ensures (View(), ok) == RetiredLease(old(View()))
      ensures ok <==> old(state) == HandoffInitiated || old(state) == HandoffPending
      ensures epoch == old(epoch) && expiry == old(expiry) && state == if ok then Retired else old(state)
    {
      if state != HandoffInitiated && state != HandoffPending {
        return false;
      }
      state := Retired;
      ok := true;
    }

    method RevertHandoff() returns (ok: bool)
      modifies this
      ensures (View(), ok) == Reverted(old(View()))
      ensures ok <==> old(state) == HandoffInitiated
      ensures epoch == old(epoch) && expiry == old(expiry) && state == if ok then ActiveOwner else old(state)
    {
      if state != HandoffInitiated {
        return false;
      }
      state := ActiveOwner;
      ok := true;
    }

    method Recover(now: int) returns (ok: bool)
      modifies this
      ensures (View(), ok) == Recovered(old(View()), config, now)
      ensures ok <==> old(state) == RecoveryRequired
      ensures
        View() == if ok then LeaseValue(Epoch((old(epoch).major + 1) % TWO_TO_THE_64, 0), Some(now + config.duration), ActiveOwner)
                  else old(View())
    {
      if state != RecoveryRequired {
        return false;
      }
      epoch := Epoch(Inc64(epoch.major), 0);
      expiry := Some(now + config.duration);
      state := ActiveOwner;
      ok := true;
    }

    method CheckAndRenewLease(c: Call) returns (allowed: bool)
      modifies this
      ensures (View(), allowed) == Checked(old(View()), config, c)
      ensures
        config.Valid() && allowed && old(expiry).Some? && c.graced <= old(expiry).value + config.grace ==>
          (View() != old(View())
           <==> (old(expiry).value - c.compared) as real <= config.duration as real * config.renewalWindow)
    {
      if config.Valid() {
        CheckSays(View(), config, c);
      }
      var ok := ValidateForTick(c.validated);
      if !ok {
        return false;
      }
      if NeedsRenewal(View(), config, c.compared) {
        var renewed := Renew(c.graced, c.granted);
      }
      allowed := true;
    }
  }

  // ----- One pre-tick check -----

  /** No more than the window's share of the duration is left. */
  ghost predicate Due(expiry: int, cfg: Config, now: int) {
    (expiry - now) as real <= cfg.duration as real * cfg.renewalWindow
  }

  /** What one check does, in terms of the configuration: it allows the tick up to expiry plus grace;
      it renews exactly when what is left is within the window (and grace has not passed meanwhile);
      a renewal grants the next generation and a full duration. */
  lemma CheckSays(l: LeaseValue, cfg: Config, c: Call)
    requires cfg.Valid()
    ensures
      var (next, ok) := Checked(l, cfg, c);
      var inTime := l.expiry.None? || c.validated <= l.expiry.value + cfg.grace;
      var renews := ok && l.expiry.Some? && Due(l.expiry.value, cfg, c.compared) && c.graced <= l.expiry.value + cfg.grace;
      && (ok <==> l.state == ActiveOwner && inTime) && (ok <==> CanTick(l.state) && inTime)
      && (renews ==>
            && next.epoch == Epoch(l.epoch.major, (l.epoch.generation + 1) % TWO_TO_THE_64)
            && next.expiry == Some(c.granted + cfg.duration) && next.state == ActiveOwner)
      && (ok && !renews ==> next == l)
      && (!ok ==> next == if l.state == ActiveOwner then LeaseValue(l.epoch, l.expiry, RecoveryRequired) else l)
  {
    if l.expiry.Some? {
      ThresholdSays(cfg);
      AtMostFloor(l.expiry.value - c.compared, cfg.Threshold(), cfg.duration as real * cfg.renewalWindow);
    }
  }

  lemma AtMostFloor(n: int, t: int, x: real)
    requires t as real <= x < (t + 1) as real
    ensures n <= t <==> n as real <= x
  {
  }

  // ----- Pre-tick checks over a whole run -----

  /** The clock readings of one CheckAndRenewLease call, in the order it takes them. */
  datatype Call = Call(validated: int, compared: int, graced: int, granted: int) {
    predicate Ordered() { validated <= compared <= graced <= granted }
  }

  function Checked(l: LeaseValue, cfg: Config, c: Call): (LeaseValue, bool) {
    var (v, ok) := Validated(l, cfg, c.validated);
    if !ok then (v, false)
    else if NeedsRenewal(v, cfg, c.compared) then (Renewed(v, cfg, c.graced, c.granted).0, true)
    else (v, true)
  }

  function CheckedAll(l: LeaseValue, cfg: Config, calls: seq<Call>): (LeaseValue, bool)
    decreases |calls|
  {
    if calls == [] then (l, true)
    else
      var (next, ok) := Checked(l, cfg, calls[0]);
      var (last, rest) := CheckedAll(next, cfg, calls[1..]);
      (last, ok && rest)
  }

  /** Each call ends at most `gap` after the previous call compared the remaining time
      (the first one, after `since`). */
  ghost predicate Paced(calls: seq<Call>, since: int, gap: int)
    decreases |calls|
  {
    calls == [] ||
    (calls[0].Ordered() && since <= calls[0].validated && calls[0].granted <= since + gap
     && Paced(calls[1..], calls[0].compared, gap))
  }

  lemma CheckedKeepsMargin(l: LeaseValue, cfg: Config, since: int, c: Call)
    requires cfg.Valid() && l.state == ActiveOwner && l.expiry.Some?
    requires l.expiry.value > since + cfg.Threshold()
    requires c.Ordered() && since <= c.validated && c.granted <= since + cfg.Threshold() + cfg.grace + 1
    ensures
      var (next, ok) := Checked(l, cfg, c);
      && ok && next.state == ActiveOwner && next.expiry.Some?
      && next.expiry.value > c.compared + cfg.Threshold()
      && (NeedsRenewal(l, cfg, c.compared) ==> next == Granted(l.epoch.(generation := Inc64(l.epoch.generation)), cfg, c.granted))
  {
  }

  /** Calls at most threshold + grace + 1 ns apart never lose the lease, and no renewal fails. */
  lemma {:induction false} PacedChecksKeepTheLease(l: LeaseValue, cfg: Config, since: int, calls: seq<Call>)
    requires cfg.Valid() && l.state == ActiveOwner && l.expiry.Some?
    requires l.expiry.value > since + cfg.Threshold()
    requires Paced(calls, since, cfg.Threshold() + cfg.grace + 1)
    ensures
      var (last, ok) := CheckedAll(l, cfg, calls);
      ok && last.state == ActiveOwner
    decreases |calls|
  {
    if calls != [] {
      CheckedKeepsMargin(l, cfg, since, calls[0]);
      PacedChecksKeepTheLease(Checked(l, cfg, calls[0]).0, cfg, calls[0].compared, calls[1..]);
    }
  }

  lemma FreshLeaseSurvivesPacedChecks(epoch: Epoch, cfg: Config, grantedAt: int, calls: seq<Call>)
    requires cfg.Valid() && Paced(calls, grantedAt, cfg.Threshold() + cfg.grace + 1)
    ensures
      var (last, ok) := CheckedAll(Granted(epoch, cfg, grantedAt), cfg, calls);
      ok && last.state == ActiveOwner
  {
    PacedChecksKeepTheLease(Granted(epoch, cfg, grantedAt), cfg, grantedAt, calls);
  }

  /** One nanosecond more between calls is too much: under every configuration some run
      paced that way is denied a tick. */
  lemma GapBoundIsExact(epoch: Epoch, cfg: Config, grantedAt: int) returns (calls: seq<Call>)
    requires cfg.Valid()
    ensures Paced(calls, grantedAt, cfg.Threshold() + cfg.grace + 2)
    ensures !CheckedAll(Granted(epoch, cfg, grantedAt), cfg, calls).1
  {
    calls := IdleThenLate(Granted(epoch, cfg, grantedAt), cfg, grantedAt);
  }

  /** Checks every nanosecond while no renewal is due, then one that comes just too late. */
  lemma {:induction false} IdleThenLate(l: LeaseValue, cfg: Config, since: int) returns (calls: seq<Call>)
    requires cfg.Valid() && l.state == ActiveOwner && l.expiry.Some?
    requires l.expiry.value > since + cfg.Threshold()
    ensures Paced(calls, since, cfg.Threshold() + cfg.grace + 2)
    ensures !CheckedAll(l, cfg, calls).1
    decreases l.expiry.value - since
  {
    if l.expiry.value == since + cfg.Threshold() + 1 {
      var late := since + cfg.Threshold() + cfg.grace + 2;
      calls := [Call(late, late, late, late)];
      assert !Checked(l, cfg, calls[0]).1;
    } else {
      var rest := IdleThenLate(l, cfg, since + 1);
      calls := [Call(since + 1, since + 1, since + 1, since + 1)] + rest;
      assert Checked(l, cfg, calls[0]) == (l, true);
      assert calls[1..] == rest;
    }
  }

  /** No check, whatever came before it, allows a tick once expiry plus grace has passed,
      and a denied lease stays denied. */
  lemma {:induction false} NoTickPastGrace(l: LeaseValue, cfg: Config, calls: seq<Call>, c: Call)
    ensures
      var last := CheckedAll(l, cfg, calls).0;
      && (Checked(last, cfg, c).1 ==>
            CheckedAll(l, cfg, calls).1 && last.state == ActiveOwner
            && (last.expiry.Some? ==> c.validated <= last.expiry.value + cfg.grace))
      && (!Checked(last, cfg, c).1 ==> !CanTick(Checked(last, cfg, c).0.state))
    decreases |calls|
  {
    if calls != [] {
      NoTickPastGrace(Checked(l, cfg, calls[0]).0, cfg, calls[1..], c);
      if !Checked(l, cfg, calls[0]).1 {
        StaysDenied(Checked(l, cfg, calls[0]).0, cfg, calls[1..]);
      }
    }
  }

  lemma {:induction false} StaysDenied(l: LeaseValue, cfg: Config, calls: seq<Call>)
    requires l.state != ActiveOwner
    ensures CheckedAll(l, cfg, calls).0 == l
    decreases |calls|
  {
    if calls != [] {
      StaysDenied(l, cfg, calls[1..]);
    }
  }

  // ----- Epochs along a chain of authority -----

  /** What happens to the one holder of authority: it renews, recovers after an expiry, saves a
      checkpoint, or hands over in a confirmed migration. */
  datatype Grant = Renewal | Recovery | CheckpointSave | Migration

  /** The epoch in force, the major version in the stored checkpoint, and every epoch granted so far. */
  datatype Chain = Chain(current: Epoch, savedMajor: Option<uint64>, granted: seq<Epoch>)

  const FIRST_GRANT := Chain(Epoch(0, 0), None, [Epoch(0, 0)])

  function Take(c: Chain, e: Epoch): Chain {
    c.(current := e, granted := c.granted + [e])
  }

  /** A migration grants the target the major version of the packaged checkpoint plus one;
      without a stored checkpoint there is nothing to package. */
  function Advance(c: Chain, g: Grant): Chain {
    match g
    case Renewal => Take(c, c.current.(generation := Inc64(c.current.generation)))
    case Recovery => Take(c, Epoch(Inc64(c.current.major), 0))
    case CheckpointSave => c.(savedMajor := Some(c.current.major))
    case Migration => if c.savedMajor.Some? then Take(c, Epoch(Inc64(c.savedMajor.value), 0)) else c
  }

  ghost predicate NoWrap(c: Chain) {
    c.current.major + 1 < TWO_TO_THE_64 && c.current.generation + 1 < TWO_TO_THE_64
  }

  function AdvanceAll(c: Chain, gs: seq<Grant>): Chain
    decreases |gs|
  {
    if gs == [] then c else AdvanceAll(Advance(c, gs[0]), gs[1..])
  }

  /** Every migration happens with a checkpoint saved under the current major version. */
  ghost predicate SavedBeforeMigrating(c: Chain, gs: seq<Grant>)
    decreases |gs|
  {
    gs == [] ||
    (NoWrap(c) && (gs[0].Migration? ==> c.savedMajor == Some(c.current.major))
     && SavedBeforeMigrating(Advance(c, gs[0]), gs[1..]))
  }

  ghost predicate Increasing(es: seq<Epoch>) {
    forall i, j :: 0 <= i < j < |es| ==> es[j].Supersedes(es[i])
  }

  ghost predicate ChainInv(c: Chain) {
    && c.granted != [] && c.granted[|c.granted| - 1] == c.current
    && (c.savedMajor.Some? ==> c.savedMajor.value <= c.current.major)
  }

  lemma TakeIncreases(c: Chain, e: Epoch)
    requires ChainInv(c) && Increasing(c.granted) && e.Supersedes(c.current)
    ensures Increasing(Take(c, e).granted)
  {
    forall i | 0 <= i < |c.granted|
      ensures e.Supersedes(c.granted[i])
    {
      SupersedesIsStrictTotalOrder(e, c.current, c.granted[i]);
    }
  }

  /** Every epoch granted along such a chain supersedes all the earlier ones. */
  lemma {:induction false} EpochsOnlyIncrease(c: Chain, gs: seq<Grant>)
    requires ChainInv(c) && Increasing(c.granted) && SavedBeforeMigrating(c, gs)
    ensures ChainInv(AdvanceAll(c, gs)) && Increasing(AdvanceAll(c, gs).granted)
    decreases |gs|
  {
    if gs != [] {
      var d := Advance(c, gs[0]);
      if d.granted != c.granted {
        TakeIncreases(c, d.current);
      }
      EpochsOnlyIncrease(d, gs[1..]);
    }
  }

  /** Without that discipline a migration still happens, and its epoch supersedes the one in
      force exactly when the packaged checkpoint carries the current major version. */
  lemma {:induction false} MigrationSupersedesIff(gs: seq<Grant>)
    requires NoWrapAlong(FIRST_GRANT, gs)
    requires AdvanceAll(FIRST_GRANT, gs).savedMajor.Some? && NoWrap(AdvanceAll(FIRST_GRANT, gs))
    ensures
      var c := AdvanceAll(FIRST_GRANT, gs);
      Advance(c, Migration).current.Supersedes(c.current) <==> c.savedMajor == Some(c.current.major)
  {
    SavedNeverAhead(FIRST_GRANT, gs);
  }

  ghost predicate NoWrapAlong(c: Chain, gs: seq<Grant>)
    decreases |gs|
  {
    gs == [] || (NoWrap(c) && NoWrapAlong(Advance(c, gs[0]), gs[1..]))
  }

  lemma {:induction false} SavedNeverAhead(c: Chain, gs: seq<Grant>)
    requires ChainInv(c) && NoWrapAlong(c, gs)
    ensures ChainInv(AdvanceAll(c, gs))
    decreases |gs|
  {
    if gs != [] {
      SavedNeverAhead(Advance(c, gs[0]), gs[1..]);
    }
  }

  /** The discipline is needed: recover, then migrate on the checkpoint saved before it. */
  lemma StaleCheckpointRepeatsAnEpoch()
    ensures
      var c := AdvanceAll(FIRST_GRANT, [CheckpointSave, Recovery, Migration]);
      c.granted == [Epoch(0, 0), Epoch(1, 0), Epoch(1, 0)]
  {
    var c1 := Advance(FIRST_GRANT, CheckpointSave);
    var c2 := Advance(c1, Recovery);
    assert [CheckpointSave, Recovery, Migration][1..] == [Recovery, Migration];
    assert [Recovery, Migration][1..] == [Migration];
    assert [Migration][1..] == [];
    assert AdvanceAll(c2, [Migration]) == AdvanceAll(Advance(c2, Migration), []);
  }
}
