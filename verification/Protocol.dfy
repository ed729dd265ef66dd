/** Every node's leases for one agent, and the transfers between them: what handoff, send,
    accept, refuse, confirmation, loss, revert, expiry and recovery do together. */
module Protocol {
  import opened Bytes
  import opened Authority

  /** One agent.Instance ever created, on its node; while it migrates it waits for one transfer. */
  datatype Instance = Instance(node: nat, lease: LeaseValue, awaiting: Option<nat>)

  datatype Status = Pending | Accepted | Refused

  /** A package that was sent; `awaited` while its source still waits for the answer. */
  datatype Transfer = Transfer(source: nat, target: nat, major: uint64, status: Status, awaited: bool)

  /** All instances so far, which one each node has registered, and all transfers so far. */
  datatype World = World(instances: seq<Instance>, registered: map<nat, nat>, transfers: seq<Transfer>)

  datatype Event =
    | Handoff(node: nat)
    | Send(instance: nat, target: nat, major: uint64)
    | Refuse(transfer: nat)
    | Accept(transfer: nat, now: int)
    | Confirm(instance: nat)
    | RefusalArrives(instance: nat)
    | LoseConfirmation(instance: nat)
    | Revert(node: nat)
    | Validate(instance: nat, now: int)
    | Renew(instance: nat, checkedAt: int, grantedAt: int)
    | Recover(instance: nat, now: int)

  function Initially(cfg: Config, now: int): World {
    World([Instance(0, Granted(Epoch(0, 0), cfg, now), None)], map[0 := 0], [])
  }

  function WithLease(w: World, i: nat, l: LeaseValue): World
    requires i < |w.instances|
  {
    w.(instances := w.instances[i := w.instances[i].(lease := l)])
  }

  /** The instance's wait is over, with this lease. */
  function Settled(w: World, i: nat, l: LeaseValue): World
    requires i < |w.instances| && w.instances[i].awaiting.Some? && w.instances[i].awaiting.value < |w.transfers|
  {
    var x := w.instances[i].awaiting.value;
    w.(instances := w.instances[i := Instance(w.instances[i].node, l, None)],
       transfers := w.transfers[x := w.transfers[x].(awaited := false)])
  }

  predicate Awaits(w: World, i: nat) {
    i < |w.instances| && w.instances[i].awaiting.Some? && w.instances[i].awaiting.value < |w.transfers|
  }

  function Answer(w: World, i: nat): Status
    requires Awaits(w, i)
  {
    w.transfers[w.instances[i].awaiting.value].status
  }

  /** An event that is not possible in a state leaves it as it is. */
  function Step(w: World, cfg: Config, e: Event): World {
    match e
    case Handoff(n) =>
      if n in w.registered && w.registered[n] < |w.instances|
      then WithLease(w, w.registered[n], HandedOff(w.instances[w.registered[n]].lease).0) else w
    case Send(i, n, major) =>
      if i < |w.instances| && w.instances[i].lease.state == HandoffInitiated && w.instances[i].awaiting.None?
         && n != w.instances[i].node
      then
        w.(instances := w.instances[i := w.instances[i].(awaiting := Some(|w.transfers|))],
           transfers := w.transfers + [Transfer(i, n, major, Pending, true)])
      else w
    case Refuse(x) =>
      if x < |w.transfers| && w.transfers[x].status.Pending?
      then w.(transfers := w.transfers[x := w.transfers[x].(status := Refused)]) else w
    case Accept(x, now) =>
      if x < |w.transfers| && w.transfers[x].status.Pending?
      then
        var t := w.transfers[x];
        World(w.instances + [Instance(t.target, Granted(Epoch(Inc64(t.major), 0), cfg, now), None)],
              w.registered[t.target := |w.instances|], w.transfers[x := t.(status := Accepted)])
      else w
    case Confirm(i) =>
      if Awaits(w, i) && Answer(w, i).Accepted?
      then
        var n := w.instances[i].node;
        var u := Settled(w, i, RetiredLease(w.instances[i].lease).0);
        if n in w.registered && w.registered[n] == i then u.(registered := w.registered - {n}) else u
      else w
    case RefusalArrives(i) =>
      if Awaits(w, i) && Answer(w, i).Refused? then Settled(w, i, w.instances[i].lease) else w
    case LoseConfirmation(i) =>
      if Awaits(w, i) then Settled(w, i, w.instances[i].lease.(state := RecoveryRequired)) else w
    case Revert(n) =>
      if n in w.registered && w.registered[n] < |w.instances| && w.instances[w.registered[n]].awaiting.None?
      then WithLease(w, w.registered[n], Reverted(w.instances[w.registered[n]].lease).0) else w
    case Validate(i, now) =>
      if i < |w.instances| then WithLease(w, i, Validated(w.instances[i].lease, cfg, now).0) else w
    case Renew(i, a, b) =>
      if i < |w.instances| then WithLease(w, i, Renewed(w.instances[i].lease, cfg, a, b).0) else w
    case Recover(i, now) =>
      if i < |w.instances| then WithLease(w, i, Recovered(w.instances[i].lease, cfg, now).0) else w
  }

  function Run(w: World, cfg: Config, es: seq<Event>): World
    decreases |es|
  {
    if es == [] then w else Run(Step(w, cfg, es[0]), cfg, es[1..])
  }

  // ----- Safety -----

  ghost predicate Owner(w: World, i: nat) {
    i < |w.instances| && CanTick(w.instances[i].lease.state)
  }

  ghost predicate AtMostOneOwner(w: World) {
    forall i, j :: Owner(w, i) && Owner(w, j) ==> i == j
  }

  /** What may still make an instance an owner: an instance that may tick, now or once its handoff
      is reverted; or a transfer nobody waits for any more, that its target may still accept. */
  datatype Claim = ByInstance(i: nat) | ByTransfer(x: nat)

  ghost predicate Holds(w: World, c: Claim) {
    match c
    case ByInstance(i) =>
      && i < |w.instances|
      && var s := w.instances[i].lease.state;
      s == ActiveOwner || (s == HandoffInitiated && !(Awaits(w, i) && Answer(w, i).Accepted?))
    case ByTransfer(x) =>
      x < |w.transfers| && w.transfers[x].status.Pending? && !w.transfers[x].awaited
  }

  ghost predicate NoClaim(w: World) {
    forall c :: !Holds(w, c)
  }

  ghost predicate SoleClaim(w: World) {
    forall c, d :: Holds(w, c) && Holds(w, d) ==> c == d
  }

  ghost predicate Waiting(w: World, i: nat, x: nat)
    requires i < |w.instances|
  {
    && w.instances[i].awaiting == Some(x) && w.instances[i].lease.state == HandoffInitiated
    && x < |w.transfers| && w.transfers[x].awaited && w.transfers[x].source == i
  }

  /** Waits and answers match, and each node registers an instance of its own. */
  ghost predicate Consistent(w: World) {
    && (forall i :: 0 <= i < |w.instances| && w.instances[i].awaiting.Some? ==> Waiting(w, i, w.instances[i].awaiting.value))
    && (forall x :: 0 <= x < |w.transfers| && w.transfers[x].awaited ==>
          w.transfers[x].source < |w.instances| && Waiting(w, w.transfers[x].source, x))
    && (forall n :: n in w.registered ==> w.registered[n] < |w.instances| && w.instances[w.registered[n]].node == n)
  }

  /** A handoff that can still be reverted is that of its node's registered instance. */
  ghost predicate Revertible(w: World) {
    forall i ::
      0 <= i < |w.instances| && w.instances[i].lease.state == HandoffInitiated && Holds(w, ByInstance(i)) ==> Registered(w, i)
  }

  ghost predicate Registered(w: World, i: nat)
    requires i < |w.instances|
  {
    w.instances[i].node in w.registered && w.registered[w.instances[i].node] == i
  }

  ghost predicate Inv(w: World) {
    Consistent(w) && Revertible(w) && SoleClaim(w)
  }

  /** Recovery is the only step with a precondition: nothing else may claim the agent. */
  ghost predicate Allowed(w: World, e: Event) {
    e.Recover? && e.instance < |w.instances| && w.instances[e.instance].lease.state == RecoveryRequired ==> NoClaim(w)
  }

  ghost predicate AllowedRun(w: World, cfg: Config, es: seq<Event>)
    decreases |es|
  {
    es == [] || (Allowed(w, es[0]) && AllowedRun(Step(w, cfg, es[0]), cfg, es[1..]))
  }

  lemma FewerClaims(w: World, u: World)
    requires SoleClaim(w) && forall c :: Holds(u, c) ==> Holds(w, c)
    ensures SoleClaim(u)
  {
    hide Holds;
  }

  lemma ClaimPassesOn(w: World, u: World, before: Claim, after: Claim)
    requires SoleClaim(w) && Holds(w, before)
    requires forall c :: Holds(u, c) && c != after ==> Holds(w, c) && c != before
    ensures SoleClaim(u)
  {
    hide Holds;
  }

  lemma StepKeepsSole(w: World, cfg: Config, e: Event)
    requires Inv(w) && Allowed(w, e)
    ensures SoleClaim(Step(w, cfg, e))
  {
    hide SoleClaim;
    var u := Step(w, cfg, e);
    match e {
      case Accept(x, now) =>
        if x < |w.transfers| && w.transfers[x].status.Pending? {
          AcceptPassesClaim(w, cfg, x, now);
        }
      case LoseConfirmation(i) =>
        if Awaits(w, i) {
          LossPassesClaim(w, cfg, i);
        }
      case Recover(i, now) =>
        RecoveryClaims(w, cfg, i, now);
      case _ =>
        OtherStepsShrink(w, cfg, e);
        FewerClaims(w, u);
    }
  }

  lemma OtherStepsShrink(w: World, cfg: Config, e: Event)
    requires Consistent(w) && !e.Accept? && !e.LoseConfirmation? && !e.Recover?
    ensures forall c :: Holds(Step(w, cfg, e), c) ==> Holds(w, c)
  {
  }

  /** A pending transfer is claimed by its waiting source, or by itself. */
  lemma PendingIsClaimed(w: World, x: nat)
    requires Consistent(w) && x < |w.transfers| && w.transfers[x].status.Pending?
    ensures Holds(w, if w.transfers[x].awaited then ByInstance(w.transfers[x].source) else ByTransfer(x))
    ensures
      w.transfers[x].awaited ==>
        w.transfers[x].source < |w.instances| && w.instances[w.transfers[x].source].lease.state == HandoffInitiated
  {
  }

  /** Accepting a package hands the claim to the new instance, whoever held it. */
  lemma AcceptPassesClaim(w: World, cfg: Config, x: nat, now: int)
    requires Inv(w) && x < |w.transfers| && w.transfers[x].status.Pending?
    ensures SoleClaim(Step(w, cfg, Accept(x, now)))
    ensures forall c :: Holds(Step(w, cfg, Accept(x, now)), c) <==> c == ByInstance(|w.instances|)
    ensures
      var u, n, t := Step(w, cfg, Accept(x, now)), |w.instances|, w.transfers[x];
      && |u.instances| == n + 1 && u.instances[..n] == w.instances
      && u.instances[n]
         == Instance(t.target, LeaseValue(Epoch((t.major + 1) % TWO_TO_THE_64, 0), Some(now + cfg.duration), ActiveOwner), None)
      && u.registered == w.registered[t.target := n]
  {
    var before := if w.transfers[x].awaited then ByInstance(w.transfers[x].source) else ByTransfer(x);
    PendingIsClaimed(w, x);
    ClaimPassesOn(w, Step(w, cfg, Accept(x, now)), before, ByInstance(|w.instances|));
  }

  /** Losing a confirmation leaves the source without a claim: a pending transfer now holds it, an
      accepted one has passed it on already, and after a refusal there is none. */
  lemma LossPassesClaim(w: World, cfg: Config, i: nat)
    requires Inv(w) && Awaits(w, i)
    ensures SoleClaim(Step(w, cfg, LoseConfirmation(i)))
    ensures
      var u := Step(w, cfg, LoseConfirmation(i));
      && !Holds(u, ByInstance(i))
      && match Answer(w, i) {
           case Pending => forall c :: Holds(u, c) <==> c == ByTransfer(w.instances[i].awaiting.value)
           case Accepted => forall c :: Holds(u, c) <==> Holds(w, c)
           case Refused => NoClaim(u)
         }
  {
    var u := Step(w, cfg, LoseConfirmation(i));
    var x := w.instances[i].awaiting.value;
    if w.transfers[x].status.Pending? {
      ClaimPassesOn(w, u, ByInstance(i), ByTransfer(x));
    } else {
      FewerClaims(w, u);
      if w.transfers[x].status.Refused? {
        assert Holds(w, ByInstance(i));
        assert forall c :: Holds(u, c) ==> Holds(w, c);
      }
    }
  }

  /** A recovery that takes effect makes the instance the only claimant. */
  lemma RecoveryClaims(w: World, cfg: Config, i: nat, now: int)
    requires Inv(w) && Allowed(w, Recover(i, now))
    ensures SoleClaim(Step(w, cfg, Recover(i, now)))
    ensures
      i < |w.instances| && w.instances[i].lease.state == RecoveryRequired ==>
        forall c :: Holds(Step(w, cfg, Recover(i, now)), c) <==> c == ByInstance(i)
  {
    var u := Step(w, cfg, Recover(i, now));
    forall c | Holds(u, c) && c != ByInstance(i)
      ensures Holds(w, c)
    {
    }
    if i < |w.instances| && w.instances[i].lease.state == RecoveryRequired {
      assert forall c :: Holds(u, c) ==> c == ByInstance(i);
    } else {
      assert u.instances == w.instances;
    }
  }

  /** An instance that does not wait may change its lease in any way. */
  lemma LeaseStepsKeepConsistent(w: World, i: nat, l: LeaseValue)
    requires Consistent(w) && i < |w.instances|
    requires w.instances[i].awaiting.Some? ==> l.state == w.instances[i].lease.state
    ensures Consistent(WithLease(w, i, l))
  {
  }

  lemma SettlingKeepsConsistent(w: World, i: nat, l: LeaseValue)
    requires Consistent(w) && Awaits(w, i)
    ensures Consistent(Settled(w, i, l))
  {
  }

  lemma TransferStepsKeepConsistent(w: World, cfg: Config, e: Event)
    requires Consistent(w) && (e.Send? || e.Refuse? || e.Accept?)
    ensures Consistent(Step(w, cfg, e))
  {
    var u := Step(w, cfg, e);
    forall x | 0 <= x < |u.transfers| && u.transfers[x].awaited
      ensures u.transfers[x].source < |u.instances| && Waiting(u, u.transfers[x].source, x)
    {
      if x < |w.transfers| {
        assert w.transfers[x].awaited && Waiting(w, w.transfers[x].source, x);
      }
    }
  }

  lemma StepKeepsConsistent(w: World, cfg: Config, e: Event)
    requires Consistent(w)
    ensures Consistent(Step(w, cfg, e))
  {
    hide Consistent;
    match e {
      case Handoff(n) =>
        if n in w.registered && w.registered[n] < |w.instances| {
          LeaseStepIsSafe(w, w.registered[n], HandedOff(w.instances[w.registered[n]].lease).0);
        }
      case Revert(n) =>
        if n in w.registered && w.registered[n] < |w.instances| && w.instances[w.registered[n]].awaiting.None? {
          LeaseStepsKeepConsistent(w, w.registered[n], Reverted(w.instances[w.registered[n]].lease).0);
        }
      case Validate(i, now) =>
        if i < |w.instances| {
          LeaseStepIsSafe(w, i, Validated(w.instances[i].lease, cfg, now).0);
        }
      case Renew(i, a, b) =>
        if i < |w.instances| {
          LeaseStepIsSafe(w, i, Renewed(w.instances[i].lease, cfg, a, b).0);
        }
      case Recover(i, now) =>
        if i < |w.instances| {
          LeaseStepIsSafe(w, i, Recovered(w.instances[i].lease, cfg, now).0);
        }
      case Confirm(i) =>
        if Awaits(w, i) {
          SettlingKeepsConsistent(w, i, RetiredLease(w.instances[i].lease).0);
          Unregistering(Settled(w, i, RetiredLease(w.instances[i].lease).0), w.instances[i].node);
        }
      case RefusalArrives(i) =>
        if Awaits(w, i) {
          SettlingKeepsConsistent(w, i, w.instances[i].lease);
        }
      case LoseConfirmation(i) =>
        if Awaits(w, i) {
          SettlingKeepsConsistent(w, i, w.instances[i].lease.(state := RecoveryRequired));
        }
      case _ =>
        TransferStepsKeepConsistent(w, cfg, e);
    }
  }

  /** A waiting instance is in HANDOFF_INITIATED, where checks, renewals and recoveries do nothing. */
  lemma LeaseStepIsSafe(w: World, i: nat, l: LeaseValue)
    requires Consistent(w) && i < |w.instances|
    requires w.instances[i].lease.state == HandoffInitiated ==> l == w.instances[i].lease
    ensures Consistent(WithLease(w, i, l))
  {
    hide Consistent;
    WaitsInHandoff(w, i);
    LeaseStepsKeepConsistent(w, i, l);
  }

  lemma WaitsInHandoff(w: World, i: nat)
    requires Consistent(w) && i < |w.instances|
    ensures w.instances[i].awaiting.Some? ==> w.instances[i].lease.state == HandoffInitiated
  {
  }

  lemma Unregistering(w: World, n: nat)
    requires Consistent(w)
    ensures Consistent(w.(registered := w.registered - {n}))
  {
  }

  lemma StepKeepsRevertible(w: World, cfg: Config, e: Event)
    requires Inv(w) && Allowed(w, e)
    ensures Revertible(Step(w, cfg, e))
  {
    hide SoleClaim, NoClaim;
    if e.Accept? {
      if e.transfer < |w.transfers| && w.transfers[e.transfer].status.Pending? {
        AcceptLeavesNoHandoff(w, cfg, e.transfer, e.now);
      }
    } else {
      OtherHandoffsWere(w, cfg, e);
    }
  }

  lemma OtherHandoffsWere(w: World, cfg: Config, e: Event)
    requires Consistent(w) && Revertible(w) && !e.Accept?
    ensures Revertible(Step(w, cfg, e))
  {
    hide Holds, Step;
    var u := Step(w, cfg, e);
    forall i | 0 <= i < |u.instances| && u.instances[i].lease.state == HandoffInitiated && Holds(u, ByInstance(i))
      ensures Registered(u, i)
    {
      HandoffWas(w, cfg, e, i);
      if w.instances[i].lease.state == HandoffInitiated {
        RegistrationStays(w, cfg, e, i);
      }
    }
  }

  /** A revertible handoff was one before, or its node's instance has just begun it. */
  lemma HandoffWas(w: World, cfg: Config, e: Event, i: nat)
    requires Consistent(w) && !e.Accept? && i < |Step(w, cfg, e).instances|
    requires Step(w, cfg, e).instances[i].lease.state == HandoffInitiated && Holds(Step(w, cfg, e), ByInstance(i))
    ensures i < |w.instances|
    ensures w.instances[i].lease.state == HandoffInitiated ==> Holds(w, ByInstance(i))
    ensures w.instances[i].lease.state != HandoffInitiated ==> Registered(Step(w, cfg, e), i)
  {
  }

  /** What is still in handoff stays registered. */
  lemma RegistrationStays(w: World, cfg: Config, e: Event, i: nat)
    requires !e.Accept? && i < |w.instances| && Registered(w, i)
    requires i < |Step(w, cfg, e).instances| && Step(w, cfg, e).instances[i].lease.state == HandoffInitiated
    requires w.instances[i].lease.state == HandoffInitiated
    ensures Registered(Step(w, cfg, e), i)
  {
  }

  /** When a package is accepted, no handoff is left that could be reverted. */
  lemma AcceptLeavesNoHandoff(w: World, cfg: Config, x: nat, now: int)
    requires Inv(w) && x < |w.transfers| && w.transfers[x].status.Pending?
    ensures Revertible(Step(w, cfg, Accept(x, now)))
  {
    var u := Step(w, cfg, Accept(x, now));
    StepKeepsSole(w, cfg, Accept(x, now));
    assert Holds(u, ByInstance(|w.instances|));
  }

  lemma StepKeepsInv(w: World, cfg: Config, e: Event)
    requires Inv(w) && Allowed(w, e)
    ensures Inv(Step(w, cfg, e))
  {
    hide Step;
    StepKeepsConsistent(w, cfg, e);
    StepKeepsSole(w, cfg, e);
    StepKeepsRevertible(w, cfg, e);
  }

  lemma {:induction false} RunKeepsInv(w: World, cfg: Config, es: seq<Event>)
    requires Inv(w) && AllowedRun(w, cfg, es)
    ensures Inv(Run(w, cfg, es))
    decreases |es|
  {
    hide Inv, Step, Allowed;
    if es != [] {
      StepKeepsInv(w, cfg, es[0]);
      RunKeepsInv(Step(w, cfg, es[0]), cfg, es[1..]);
    }
  }

  lemma InvMeansOneOwner(w: World)
    requires Inv(w)
    ensures AtMostOneOwner(w)
  {
    forall i, j | Owner(w, i) && Owner(w, j)
      ensures i == j
    {
      assert Holds(w, ByInstance(i)) && Holds(w, ByInstance(j));
    }
  }

  lemma InitiallyInv(cfg: Config, now: int)
    ensures Inv(Initially(cfg, now))
  {
  }

  /** In every run from the first launch, at most one instance anywhere may tick. */
  lemma OneOwner(cfg: Config, now: int, es: seq<Event>)
    requires AllowedRun(Initially(cfg, now), cfg, es)
    ensures AtMostOneOwner(Run(Initially(cfg, now), cfg, es))
  {
    hide Inv, Run, AllowedRun;
    InitiallyInv(cfg, now);
    RunKeepsInv(Initially(cfg, now), cfg, es);
    InvMeansOneOwner(Run(Initially(cfg, now), cfg, es));
  }

  // ----- When recovery is safe -----

  /** No continuation of the run has two owners. */
  ghost predicate SafeFrom(w: World, cfg: Config) {
    forall es :: AllowedRun(w, cfg, es) ==> AtMostOneOwner(Run(w, cfg, es))
  }

  /** Recovery is safe exactly when nothing else claims the agent: no owner, no handoff that can
      be reverted, and no abandoned transfer that can still be accepted. */
  lemma RecoverySafeIff(w: World, cfg: Config, i: nat, now: int)
    requires Inv(w) && i < |w.instances| && w.instances[i].lease.state == RecoveryRequired
    ensures SafeFrom(Step(w, cfg, Recover(i, now)), cfg) <==> NoClaim(w)
  {
    hide AtMostOneOwner, Run, AllowedRun;
    var u := Step(w, cfg, Recover(i, now));
    if NoClaim(w) {
      StepKeepsInv(w, cfg, Recover(i, now));
      forall es | AllowedRun(u, cfg, es)
        ensures AtMostOneOwner(Run(u, cfg, es))
      {
        RunKeepsInv(u, cfg, es);
        InvMeansOneOwner(Run(u, cfg, es));
      }
    } else {
      var c :| Holds(w, c);
      var es := SecondOwner(w, cfg, i, now, c);
    }
  }

  /** The run that makes a second owner out of a claim, after a recovery that overlooked it. */
  lemma SecondOwner(w: World, cfg: Config, i: nat, now: int, c: Claim) returns (es: seq<Event>)
    requires Inv(w) && i < |w.instances| && w.instances[i].lease.state == RecoveryRequired && Holds(w, c)
    ensures
      var u := Step(w, cfg, Recover(i, now));
      AllowedRun(u, cfg, es) && !AtMostOneOwner(Run(u, cfg, es))
  {
    var u := Step(w, cfg, Recover(i, now));
    assert Owner(u, i);
    match c {
      case ByTransfer(x) =>
        es := [Accept(x, now)];
        OneStep(u, cfg, es[0]);
        var v := Step(u, cfg, es[0]);
        assert Owner(v, i) && Owner(v, |w.instances|);
      case ByInstance(j) =>
        if w.instances[j].lease.state == ActiveOwner {
          es := [];
          assert Owner(u, j);
        } else if w.instances[j].awaiting.None? {
          es := [Revert(w.instances[j].node)];
          RevertMakesOwner(u, cfg, i, j);
        } else {
          var x := w.instances[j].awaiting.value;
          var v := Step(u, cfg, Refuse(x));
          var t := Step(v, cfg, RefusalArrives(j));
          es := [Refuse(x), RefusalArrives(j), Revert(w.instances[j].node)];
          assert Owner(t, i);
          RevertMakesOwner(t, cfg, i, j);
          ThreeSteps(u, cfg, Refuse(x), RefusalArrives(j), Revert(w.instances[j].node));
        }
    }
  }

  lemma OneStep(w: World, cfg: Config, e: Event)
    requires !e.Recover?
    ensures AllowedRun(w, cfg, [e]) && Run(w, cfg, [e]) == Step(w, cfg, e)
  {
    hide Step;
    assert [e][1..] == [];
    assert AllowedRun(Step(w, cfg, e), cfg, []);
  }

  lemma ThreeSteps(w: World, cfg: Config, e: Event, f: Event, g: Event)
    requires !e.Recover? && !f.Recover? && !g.Recover?
    ensures AllowedRun(w, cfg, [e, f, g])
    ensures Run(w, cfg, [e, f, g]) == Step(Step(Step(w, cfg, e), cfg, f), cfg, g)
  {
    hide Step;
    assert [e, f, g][1..] == [f, g] && [f, g][1..] == [g];
    OneStep(Step(Step(w, cfg, e), cfg, f), cfg, g);
  }

  lemma RevertMakesOwner(w: World, cfg: Config, i: nat, j: nat)
    requires Owner(w, i) && j < |w.instances| && Registered(w, j)
    requires w.instances[j].lease.state == HandoffInitiated && w.instances[j].awaiting.None?
    ensures AllowedRun(w, cfg, [Revert(w.instances[j].node)])
    ensures !AtMostOneOwner(Run(w, cfg, [Revert(w.instances[j].node)]))
    ensures !AtMostOneOwner(Step(w, cfg, Revert(w.instances[j].node)))
  {
    OneStep(w, cfg, Revert(w.instances[j].node));
    var u := Step(w, cfg, Revert(w.instances[j].node));
    assert Owner(u, i) && Owner(u, j);
  }

  /** The documented precondition is weaker: no other instance ticks and only one ever has, and
      still the recovered source and the late target both become owners. */
  lemma DocumentedPreconditionIsNotEnough(cfg: Config, now: int)
    ensures
      var w := Run(Initially(cfg, now), cfg, [Handoff(0), Send(0, 1, 0), LoseConfirmation(0)]);
      && (forall i :: !Owner(w, i)) && |w.instances| == 1
      && !AtMostOneOwner(Step(Step(w, cfg, Recover(0, now)), cfg, Accept(0, now)))
  {
    ThreeSteps(Initially(cfg, now), cfg, Handoff(0), Send(0, 1, 0), LoseConfirmation(0));
    var w := Run(Initially(cfg, now), cfg, [Handoff(0), Send(0, 1, 0), LoseConfirmation(0)]);
    var v := Step(Step(w, cfg, Recover(0, now)), cfg, Accept(0, now));
    assert Owner(v, 0) && Owner(v, 1);
  }

  // ----- Epochs over all nodes -----

  /** The epoch a step grants, if it grants one. */
  function Grant(w: World, cfg: Config, e: Event): Option<Epoch> {
    match e
    case Accept(x, _) =>
      if x < |w.transfers| && w.transfers[x].status.Pending? then Some(Epoch(Inc64(w.transfers[x].major), 0)) else None
    case Renew(i, a, b) =>
      if i < |w.instances| && Renewed(w.instances[i].lease, cfg, a, b).1
      then Some(Renewed(w.instances[i].lease, cfg, a, b).0.epoch) else None
    case Recover(i, now) =>
      if i < |w.instances| && Recovered(w.instances[i].lease, cfg, now).1
      then Some(Recovered(w.instances[i].lease, cfg, now).0.epoch) else None
    case _ => None
  }

  function Listed(g: Option<Epoch>): seq<Epoch> {
    if g.None? then [] else [g.value]
  }

  /** All epochs granted along a run, in order. */
  function Grants(w: World, cfg: Config, es: seq<Event>): seq<Epoch>
    decreases |es|
  {
    if es == [] then [] else Listed(Grant(w, cfg, es[0])) + Grants(Step(w, cfg, es[0]), cfg, es[1..])
  }

  /** What is sent was saved under the sender's own lease, and no counter wraps. */
  ghost predicate Regular(w: World, e: Event) {
    match e
    case Send(i, _, major) => i < |w.instances| ==> major == w.instances[i].lease.epoch.major
    case Accept(x, _) => x < |w.transfers| ==> w.transfers[x].major + 1 < TWO_TO_THE_64
    case Renew(i, _, _) => i < |w.instances| ==> w.instances[i].lease.epoch.generation + 1 < TWO_TO_THE_64
    case Recover(i, _) => i < |w.instances| ==> w.instances[i].lease.epoch.major + 1 < TWO_TO_THE_64
    case _ => true
  }

  ghost predicate RegularRun(w: World, cfg: Config, es: seq<Event>)
    decreases |es|
  {
    es == [] || (Regular(w, es[0]) && RegularRun(Step(w, cfg, es[0]), cfg, es[1..]))
  }

  ghost predicate MajorsUpTo(granted: seq<Epoch>, major: uint64) {
    forall k :: 0 <= k < |granted| ==> granted[k].major <= major
  }

  /** The recovering instance has the highest major version granted so far. */
  ghost predicate Current(w: World, cfg: Config, granted: seq<Epoch>, e: Event) {
    e.Recover? && Grant(w, cfg, e).Some? ==> MajorsUpTo(granted, w.instances[e.instance].lease.epoch.major)
  }

  ghost predicate CurrentRun(w: World, cfg: Config, granted: seq<Epoch>, es: seq<Event>)
    decreases |es|
  {
    es == [] ||
    (Current(w, cfg, granted, es[0])
     && CurrentRun(Step(w, cfg, es[0]), cfg, granted + Listed(Grant(w, cfg, es[0])), es[1..]))
  }

  ghost predicate IsTop(e: Epoch, granted: seq<Epoch>) {
    forall k :: 0 <= k < |granted| ==> granted[k] == e || e.Supersedes(granted[k])
  }

  /** Whoever claims the agent holds the newest epoch, and no pending package is older than it. */
  ghost predicate ClaimsAreCurrent(w: World, granted: seq<Epoch>) {
    && (forall i :: 0 <= i < |w.instances| && Holds(w, ByInstance(i)) ==> IsTop(w.instances[i].lease.epoch, granted))
    && (forall x :: 0 <= x < |w.transfers| && w.transfers[x].status.Pending? ==> MajorsUpTo(granted, w.transfers[x].major))
  }

  lemma NextMajorIsNewest(granted: seq<Epoch>, major: uint64)
    requires major + 1 < TWO_TO_THE_64
    ensures
      MajorsUpTo(granted, major)
      <==> forall k :: 0 <= k < |granted| ==> Epoch(Inc64(major), 0).Supersedes(granted[k])
  {
  }

  lemma IncreasingAppended(granted: seq<Epoch>, g: Epoch)
    requires Increasing(granted)
    ensures Increasing(granted + [g]) <==> forall k :: 0 <= k < |granted| ==> g.Supersedes(granted[k])
  {
    var all := granted + [g];
    assert all[|granted|] == g;
    assert forall k :: 0 <= k < |granted| ==> all[k] == granted[k];
  }

  /** A sole claimant that is an instance leaves no package pending. */
  lemma NothingPending(w: World, i: nat)
    requires Consistent(w) && (forall c :: Holds(w, c) <==> c == ByInstance(i))
    requires i < |w.instances| && w.instances[i].lease.state == ActiveOwner
    ensures forall x :: 0 <= x < |w.transfers| ==> !w.transfers[x].status.Pending?
  {
    forall x | 0 <= x < |w.transfers|
      ensures !w.transfers[x].status.Pending?
    {
      if w.transfers[x].status.Pending? {
        PendingIsClaimed(w, x);
      }
    }
  }

  /** A new sole owner at the newest epoch. */
  lemma NewOwnerIsCurrent(w: World, i: nat, granted: seq<Epoch>, g: Epoch)
    requires Consistent(w) && (forall c :: Holds(w, c) <==> c == ByInstance(i))
    requires i < |w.instances| && w.instances[i].lease.state == ActiveOwner && w.instances[i].lease.epoch == g
    requires forall k :: 0 <= k < |granted| ==> g.Supersedes(granted[k])
    ensures ClaimsAreCurrent(w, granted + [g])
  {
    hide Holds, Consistent;
    NothingPending(w, i);
    var all := granted + [g];
    assert forall k :: 0 <= k < |all| ==> all[k] == g || all[k] == granted[k];
  }

  lemma GrantlessStepsKeepCurrent(w: World, cfg: Config, e: Event, granted: seq<Epoch>)
    requires Inv(w) && ClaimsAreCurrent(w, granted) && Regular(w, e) && Grant(w, cfg, e).None?
    ensures ClaimsAreCurrent(Step(w, cfg, e), granted)
  {
    hide MajorsUpTo, IsTop, SoleClaim, Revertible, Step;
    var u := Step(w, cfg, e);
    forall i | 0 <= i < |u.instances| && Holds(u, ByInstance(i))
      ensures IsTop(u.instances[i].lease.epoch, granted)
    {
      ClaimantKeepsEpoch(w, cfg, e, i);
    }
    forall x | 0 <= x < |u.transfers| && u.transfers[x].status.Pending?
      ensures MajorsUpTo(granted, u.transfers[x].major)
    {
      PendingWasSent(w, cfg, e, x);
      if x == |w.transfers| {
        TopMajor(w.instances[e.instance].lease.epoch, granted);
      }
    }
  }

  /** Without a grant, who claims now claimed before, at the same epoch. */
  lemma ClaimantKeepsEpoch(w: World, cfg: Config, e: Event, i: nat)
    requires Consistent(w) && Grant(w, cfg, e).None? && Holds(Step(w, cfg, e), ByInstance(i))
    ensures Holds(w, ByInstance(i)) && Step(w, cfg, e).instances[i].lease.epoch == w.instances[i].lease.epoch
  {
  }

  /** A pending transfer was pending before, or a claimant has just sent it. */
  lemma PendingWasSent(w: World, cfg: Config, e: Event, x: nat)
    requires Grant(w, cfg, e).None? && Regular(w, e)
    requires x < |Step(w, cfg, e).transfers| && Step(w, cfg, e).transfers[x].status.Pending?
    ensures
      if x < |w.transfers| then
        w.transfers[x].status.Pending? && Step(w, cfg, e).transfers[x].major == w.transfers[x].major
      else
        && x == |w.transfers| && e.Send? && e.instance < |w.instances| && Holds(w, ByInstance(e.instance))
        && Step(w, cfg, e).transfers[x].major == w.instances[e.instance].lease.epoch.major
  {
  }

  lemma TopMajor(e: Epoch, granted: seq<Epoch>)
    requires IsTop(e, granted)
    ensures MajorsUpTo(granted, e.major)
  {
  }

  lemma AcceptIsNewest(w: World, cfg: Config, x: nat, now: int, granted: seq<Epoch>)
    requires Inv(w) && ClaimsAreCurrent(w, granted) && Regular(w, Accept(x, now))
    requires x < |w.transfers| && w.transfers[x].status.Pending?
    ensures
      var g := Epoch(Inc64(w.transfers[x].major), 0);
      && (forall k :: 0 <= k < |granted| ==> g.Supersedes(granted[k]))
      && ClaimsAreCurrent(Step(w, cfg, Accept(x, now)), granted + [g])
  {
    hide Holds, Consistent;
    var g := Epoch(Inc64(w.transfers[x].major), 0);
    NextMajorIsNewest(granted, w.transfers[x].major);
    AcceptPassesClaim(w, cfg, x, now);
    StepKeepsConsistent(w, cfg, Accept(x, now));
    NewOwnerIsCurrent(Step(w, cfg, Accept(x, now)), |w.instances|, granted, g);
  }

  lemma RenewalIsNewest(w: World, cfg: Config, i: nat, a: int, b: int, granted: seq<Epoch>)
    requires Inv(w) && ClaimsAreCurrent(w, granted) && Regular(w, Renew(i, a, b))
    requires Grant(w, cfg, Renew(i, a, b)).Some?
    ensures
      var g := Grant(w, cfg, Renew(i, a, b)).value;
      && (forall k :: 0 <= k < |granted| ==> g.Supersedes(granted[k]))
      && ClaimsAreCurrent(Step(w, cfg, Renew(i, a, b)), granted + [g])
  {
    var g := Grant(w, cfg, Renew(i, a, b)).value;
    var u := Step(w, cfg, Renew(i, a, b));
    assert Holds(w, ByInstance(i));
    assert IsTop(w.instances[i].lease.epoch, granted);
    StepKeepsSole(w, cfg, Renew(i, a, b));
    StepKeepsConsistent(w, cfg, Renew(i, a, b));
    assert Holds(u, ByInstance(i));
    NewOwnerIsCurrent(u, i, granted, g);
  }

  lemma CurrentRecoveryIsNewest(w: World, cfg: Config, i: nat, now: int, granted: seq<Epoch>)
    requires Inv(w) && Allowed(w, Recover(i, now)) && Regular(w, Recover(i, now))
    requires Grant(w, cfg, Recover(i, now)).Some?
    ensures
      var g := Grant(w, cfg, Recover(i, now)).value;
      && (Current(w, cfg, granted, Recover(i, now)) <==> forall k :: 0 <= k < |granted| ==> g.Supersedes(granted[k]))
      && (Current(w, cfg, granted, Recover(i, now)) ==>
            ClaimsAreCurrent(Step(w, cfg, Recover(i, now)), granted + [g]))
  {
    hide Holds, Consistent;
    var g := Grant(w, cfg, Recover(i, now)).value;
    NextMajorIsNewest(granted, w.instances[i].lease.epoch.major);
    RecoveryClaims(w, cfg, i, now);
    StepKeepsConsistent(w, cfg, Recover(i, now));
    if Current(w, cfg, granted, Recover(i, now)) {
      NewOwnerIsCurrent(Step(w, cfg, Recover(i, now)), i, granted, g);
    }
  }

  /** One step: what it grants supersedes everything granted before, unless it is a recovery by an
      instance that is behind. */
  lemma StepGrantsNewest(w: World, cfg: Config, e: Event, granted: seq<Epoch>)
    requires Inv(w) && Allowed(w, e) && Regular(w, e) && ClaimsAreCurrent(w, granted) && Increasing(granted)
    ensures Increasing(granted + Listed(Grant(w, cfg, e))) <==> Current(w, cfg, granted, e)
    ensures Current(w, cfg, granted, e) ==> ClaimsAreCurrent(Step(w, cfg, e), granted + Listed(Grant(w, cfg, e)))
  {
    hide Inv, ClaimsAreCurrent, Increasing, Current, Step, Regular, Allowed, Holds;
    var g := Grant(w, cfg, e);
    if g.None? {
      assert granted + [] == granted;
      GrantlessStepsKeepCurrent(w, cfg, e, granted);
      OnlyRecoveriesLag(w, cfg, granted, e);
    } else {
      IncreasingAppended(granted, g.value);
      match e {
        case Accept(x, now) =>
          AcceptIsNewest(w, cfg, x, now, granted);
          OnlyRecoveriesLag(w, cfg, granted, e);
        case Renew(i, a, b) =>
          RenewalIsNewest(w, cfg, i, a, b, granted);
          OnlyRecoveriesLag(w, cfg, granted, e);
        case Recover(i, now) =>
          CurrentRecoveryIsNewest(w, cfg, i, now, granted);
      }
    }
  }

  lemma OnlyRecoveriesLag(w: World, cfg: Config, granted: seq<Epoch>, e: Event)
    requires !e.Recover? || Grant(w, cfg, e).None?
    ensures Current(w, cfg, granted, e)
  {
  }

  lemma PrefixIncreasing(a: seq<Epoch>, b: seq<Epoch>)
    requires Increasing(a + b)
    ensures Increasing(a)
  {
    assert forall k :: 0 <= k < |a| ==> (a + b)[k] == a[k];
  }

  lemma {:induction false} RunGrantsNewest(w: World, cfg: Config, es: seq<Event>, granted: seq<Epoch>)
    requires Inv(w) && AllowedRun(w, cfg, es) && RegularRun(w, cfg, es)
    requires ClaimsAreCurrent(w, granted) && Increasing(granted)
    ensures Increasing(granted + Grants(w, cfg, es)) <==> CurrentRun(w, cfg, granted, es)
    decreases |es|
  {
    hide Inv, ClaimsAreCurrent, Increasing, Current, Step, Regular, Allowed, Grant;
    if es == [] {
      assert granted + [] == granted;
    } else {
      var now := granted + Listed(Grant(w, cfg, es[0]));
      StepGrantsNewest(w, cfg, es[0], granted);
      assert granted + Grants(w, cfg, es) == now + Grants(Step(w, cfg, es[0]), cfg, es[1..]);
      if Current(w, cfg, granted, es[0]) {
        StepKeepsInv(w, cfg, es[0]);
        RunGrantsNewest(Step(w, cfg, es[0]), cfg, es[1..], now);
      } else if Increasing(granted + Grants(w, cfg, es)) {
        PrefixIncreasing(now, Grants(Step(w, cfg, es[0]), cfg, es[1..]));
      }
    }
  }

  /** In runs that send what was saved under the sender's lease, every granted epoch supersedes all
      earlier ones exactly when every recovery is by an instance with the highest major version
      granted so far. */
  lemma EpochsIncreaseIff(cfg: Config, now: int, es: seq<Event>)
    requires AllowedRun(Initially(cfg, now), cfg, es) && RegularRun(Initially(cfg, now), cfg, es)
    ensures
      Increasing([Epoch(0, 0)] + Grants(Initially(cfg, now), cfg, es))
      <==> CurrentRun(Initially(cfg, now), cfg, [Epoch(0, 0)], es)
  {
    hide Grants, CurrentRun, AllowedRun, RegularRun;
    InitiallyInv(cfg, now);
    RunGrantsNewest(Initially(cfg, now), cfg, es, [Epoch(0, 0)]);
  }

  /** When the lease of an instance has run out for good. */
  function Late(cfg: Config, now: int): int { now + cfg.duration + cfg.grace + 1 }

  /** Hand off, send, accept, lose the confirmation; the target's lease runs out; the old source
      recovers. */
  function LostAndRecovered(cfg: Config, now: int): seq<Event> {
    [Handoff(0), Send(0, 1, 0), Accept(0, now), LoseConfirmation(0), Validate(1, Late(cfg, now)), Recover(0, Late(cfg, now))]
  }

  /** The world after the first k of these events. */
  function Stage(cfg: Config, now: int, k: nat): World {
    var l, m := Granted(Epoch(0, 0), cfg, now), Granted(Epoch(1, 0), cfg, now);
    var handed := Instance(0, l.(state := HandoffInitiated), None);
    var lost := Instance(0, l.(state := RecoveryRequired), None);
    var expired := Instance(1, m.(state := RecoveryRequired), None);
    if k == 0 then Initially(cfg, now)
    else if k == 1 then World([handed], map[0 := 0], [])
    else if k == 2 then World([handed.(awaiting := Some(0))], map[0 := 0], [Transfer(0, 1, 0, Pending, true)])
    else if k == 3 then
      World([handed.(awaiting := Some(0)), Instance(1, m, None)], map[0 := 0, 1 := 1], [Transfer(0, 1, 0, Accepted, true)])
    else if k == 4 then World([lost, Instance(1, m, None)], map[0 := 0, 1 := 1], [Transfer(0, 1, 0, Accepted, false)])
    else if k == 5 then World([lost, expired], map[0 := 0, 1 := 1], [Transfer(0, 1, 0, Accepted, false)])
    else
      World([Instance(0, Granted(Epoch(1, 0), cfg, Late(cfg, now)), None), expired],
            map[0 := 0, 1 := 1], [Transfer(0, 1, 0, Accepted, false)])
  }

  lemma StageStep(cfg: Config, now: int, k: nat)
    requires k < 6
    ensures
      var w, e := Stage(cfg, now, k), LostAndRecovered(cfg, now)[k];
      && Allowed(w, e) && Regular(w, e) && Step(w, cfg, e) == Stage(cfg, now, k + 1)
      && Listed(Grant(w, cfg, e)) == if k == 2 || k == 5 then [Epoch(1, 0)] else []
  {
  }

  lemma {:induction false} FromStage(cfg: Config, now: int, k: nat)
    requires k <= 6
    ensures
      var w, es := Stage(cfg, now, k), LostAndRecovered(cfg, now)[k..];
      && AllowedRun(w, cfg, es) && RegularRun(w, cfg, es) && Run(w, cfg, es) == Stage(cfg, now, 6)
      && Grants(w, cfg, es)
         == if k <= 2 then [Epoch(1, 0), Epoch(1, 0)] else if k <= 5 then [Epoch(1, 0)] else []
    decreases 6 - k
  {
    hide Stage;
    var all := LostAndRecovered(cfg, now);
    if k == 6 {
      RunsOver(Stage(cfg, now, 6), cfg, all[6..]);
    } else {
      StageStep(cfg, now, k);
      FromStage(cfg, now, k + 1);
      assert all[k..][1..] == all[k + 1..];
      RunsOn(Stage(cfg, now, k), Stage(cfg, now, k + 1), cfg, all[k..]);
    }
  }

  /** The failing case, in a run whose recovery is allowed: source and target have the same epoch. */
  lemma RecoveryRepeatsAnEpoch(cfg: Config, now: int)
    ensures AllowedRun(Initially(cfg, now), cfg, LostAndRecovered(cfg, now))
    ensures RegularRun(Initially(cfg, now), cfg, LostAndRecovered(cfg, now))
    ensures Grants(Initially(cfg, now), cfg, LostAndRecovered(cfg, now)) == [Epoch(1, 0), Epoch(1, 0)]
    ensures
      var w := Run(Initially(cfg, now), cfg, LostAndRecovered(cfg, now));
      |w.instances| == 2 && w.instances[0].lease.epoch == w.instances[1].lease.epoch == Epoch(1, 0)
  {
    FromStage(cfg, now, 0);
    assert LostAndRecovered(cfg, now)[0..] == LostAndRecovered(cfg, now);
  }

  lemma RunsOver(w: World, cfg: Config, es: seq<Event>)
    requires es == []
    ensures AllowedRun(w, cfg, es) && RegularRun(w, cfg, es) && Run(w, cfg, es) == w && Grants(w, cfg, es) == []
  {
  }

  lemma RunsOn(w: World, u: World, cfg: Config, es: seq<Event>)
    requires es != [] && Allowed(w, es[0]) && Regular(w, es[0]) && Step(w, cfg, es[0]) == u
    requires AllowedRun(u, cfg, es[1..]) && RegularRun(u, cfg, es[1..])
    ensures AllowedRun(w, cfg, es) && RegularRun(w, cfg, es) && Run(w, cfg, es) == Run(u, cfg, es[1..])
    ensures Grants(w, cfg, es) == Listed(Grant(w, cfg, es[0])) + Grants(u, cfg, es[1..])
  {
    hide Allowed, Regular, Step, Grant;
  }
}
