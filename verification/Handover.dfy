/** One run of the retrying migration, seen by all nodes: its tries are steps of the protocol. */
module Handovers {
  import opened Bytes
  import opened Authority
  import M = Migrations
  import P = Protocol

  /** The steps of one try by instance i at a node, as the x-th transfer; a failed send is none. */
  function TrySteps(o: M.Outcome, i: nat, node: nat, major: uint64, x: nat, now: int): seq<P.Event> {
    match o
    case NotSent(_) => []
    case Refused(_) => [P.Send(i, node, major), P.Refuse(x), P.RefusalArrives(i)]
    case Confirmed => [P.Send(i, node, major), P.Accept(x, now), P.Confirm(i)]
    case Lost(activated) =>
      if activated then [P.Send(i, node, major), P.Accept(x, now), P.LoseConfirmation(i)]
      else [P.Send(i, node, major), P.LoseConfirmation(i)]
  }

  /** Who migrates, and on which node each target is. */
  datatype Plan = Plan(instance: nat, node: nat, nodeOf: nat -> nat, major: uint64, now: int) {
    /** A node does not migrate to itself. */
    ghost predicate Valid() { forall t :: nodeOf(t) != node }
  }

  function AllTrySteps(net: M.Network, tries: seq<M.Attempt>, p: Plan, x: nat): seq<P.Event> {
    if tries == [] then []
    else
      var o := net.At(tries[0].target, tries[0].number);
      TrySteps(o, p.instance, p.nodeOf(tries[0].target), p.major, x, p.now)
      + AllTrySteps(net, tries[1..], p, if o.NotSent? then x else x + 1)
  }

  /** The whole run: hand off, try, and revert unless it succeeded or is ambiguous. */
  function RetrySteps(net: M.Network, ending: M.Ending, tries: seq<M.Attempt>, p: Plan, x: nat): seq<P.Event> {
    [P.Handoff(p.node)] + AllTrySteps(net, tries, p, x)
    + if ending.Cancelled? || ending.Exhausted? then [P.Revert(p.node)] else []
  }

  // ----- Runs in pieces -----

  lemma {:induction false} RunConcat(w: P.World, cfg: Config, a: seq<P.Event>, b: seq<P.Event>)
    ensures P.Run(w, cfg, a + b) == P.Run(P.Run(w, cfg, a), cfg, b)
    ensures P.AllowedRun(w, cfg, a + b) <==> P.AllowedRun(w, cfg, a) && P.AllowedRun(P.Run(w, cfg, a), cfg, b)
    decreases |a|
  {
    hide P.Step, P.Allowed;
    if a == [] {
      assert a + b == b;
    } else {
      assert (a + b)[1..] == a[1..] + b;
      RunConcat(P.Step(w, cfg, a[0]), cfg, a[1..], b);
    }
  }

  lemma TwoSteps(w: P.World, cfg: Config, e: P.Event, f: P.Event)
    requires !e.Recover? && !f.Recover?
    ensures P.AllowedRun(w, cfg, [e, f]) && P.Run(w, cfg, [e, f]) == P.Step(P.Step(w, cfg, e), cfg, f)
  {
    hide P.Step;
    assert [e, f][1..] == [f];
    P.OneStep(P.Step(w, cfg, e), cfg, f);
  }

  // ----- One try -----

  /** The migrating instance, handed off and waiting for nothing. */
  predicate InHandoff(w: P.World, p: Plan, l: LeaseValue) {
    && p.instance < |w.instances|
    && w.instances[p.instance] == P.Instance(p.node, l.(state := HandoffInitiated), None)
    && p.node in w.registered && w.registered[p.node] == p.instance
  }

  /** The instances beyond the first `before` are owners on the nodes of these targets. */
  ghost predicate StartedOn(w: P.World, before: nat, p: Plan, targets: seq<nat>) {
    && |w.instances| == before + |targets|
    && (forall k :: 0 <= k < |targets| ==>
          && w.instances[before + k].node == p.nodeOf(targets[k])
          && w.instances[before + k].lease.state == ActiveOwner)
  }

  /** The instance after its tries, and the instances that were started meanwhile. */
  ghost predicate Concluded(w: P.World, p: Plan, l: LeaseValue, e: M.Ending, before: nat, started: seq<nat>) {
    && StartedOn(w, before, p, started) && p.instance < before
    && w.instances[p.instance].node == p.node && w.instances[p.instance].awaiting.None?
    && match e {
         case Succeeded(_) => w.instances[p.instance].lease == l.(state := Retired) && p.node !in w.registered
         case Ambiguous =>
           w.instances[p.instance].lease == l.(state := RecoveryRequired)
           && p.node in w.registered && w.registered[p.node] == p.instance
         case _ => InHandoff(w, p, l)
       }
  }

  lemma RefusedTry(w: P.World, cfg: Config, p: Plan, l: LeaseValue, node: nat)
    requires InHandoff(w, p, l) && node != p.node
    ensures
      var es := TrySteps(M.Refused(""), p.instance, node, p.major, |w.transfers|, p.now);
      && P.AllowedRun(w, cfg, es)
      && InHandoff(P.Run(w, cfg, es), p, l)
      && |P.Run(w, cfg, es).instances| == |w.instances| && |P.Run(w, cfg, es).transfers| == |w.transfers| + 1
  {
    P.ThreeSteps(w, cfg, P.Send(p.instance, node, p.major), P.Refuse(|w.transfers|), P.RefusalArrives(p.instance));
  }

  lemma ConfirmedTry(w: P.World, cfg: Config, p: Plan, l: LeaseValue, t: nat)
    requires InHandoff(w, p, l) && p.Valid()
    ensures
      var es := TrySteps(M.Confirmed, p.instance, p.nodeOf(t), p.major, |w.transfers|, p.now);
      && P.AllowedRun(w, cfg, es)
      && Concluded(P.Run(w, cfg, es), p, l, M.Succeeded(t), |w.instances|, [t])
  {
    P.ThreeSteps(w, cfg, P.Send(p.instance, p.nodeOf(t), p.major), P.Accept(|w.transfers|, p.now), P.Confirm(p.instance));
  }

  lemma LostTry(w: P.World, cfg: Config, p: Plan, l: LeaseValue, t: nat, activated: bool)
    requires InHandoff(w, p, l) && p.Valid()
    ensures
      var es := TrySteps(M.Lost(activated), p.instance, p.nodeOf(t), p.major, |w.transfers|, p.now);
      && P.AllowedRun(w, cfg, es)
      && Concluded(P.Run(w, cfg, es), p, l, M.Ambiguous, |w.instances|, if activated then [t] else [])
  {
    var send, lose := P.Send(p.instance, p.nodeOf(t), p.major), P.LoseConfirmation(p.instance);
    if activated {
      P.ThreeSteps(w, cfg, send, P.Accept(|w.transfers|, p.now), lose);
    } else {
      TwoSteps(w, cfg, send, lose);
    }
  }

  // ----- All tries -----

  /** Whatever the network does, the tries are allowed steps that end as the run does, and start
      exactly the instances that the run's outcomes say were activated. */
  lemma {:induction false} TriesAreSteps(w: P.World, cfg: Config, p: Plan, l: LeaseValue,
                                         targets: nat, max: int, net: M.Network, t: nat, a: nat)
    requires InHandoff(w, p, l) && p.Valid()
    ensures
      var (ending, tries) := M.Tried(targets, max, net, t, a);
      var es := AllTrySteps(net, tries, p, |w.transfers|);
      && P.AllowedRun(w, cfg, es)
      && Concluded(P.Run(w, cfg, es), p, l, ending, |w.instances|, M.Activated(net, tries))
    decreases targets - t, max - a
  {
    hide M.IsRetriable, M.Activated, P.Step, InHandoff, Concluded, TrySteps, AllTrySteps, P.Run, P.AllowedRun;
    var (ending, tries) := M.Tried(targets, max, net, t, a);
    if t >= targets {
      NoTries(w, cfg, p, l, ending);
      NothingTried(net, p, |w.transfers|);
    } else if a >= max {
      TriesAreSteps(w, cfg, p, l, targets, max, net, t + 1, 0);
    } else {
      var o := net.At(t, a);
      match o {
        case Confirmed =>
          ConfirmedTry(w, cfg, p, l, t);
          OneTry(net, p, |w.transfers|, t, a);
        case Lost(activated) =>
          LostTry(w, cfg, p, l, t, activated);
          OneTry(net, p, |w.transfers|, t, a);
        case _ =>
          FailedTry(w, cfg, p, l, t, o);
          var first := TrySteps(o, p.instance, p.nodeOf(t), p.major, |w.transfers|, p.now);
          var u := P.Run(w, cfg, first);
          assert tries == [M.Attempt(t, a)] + tries[1..];
          FirstTry(net, p, |w.transfers|, t, a, tries[1..]);
          RunConcat(w, cfg, first, AllTrySteps(net, tries[1..], p, |u.transfers|));
          if !M.IsRetriable(M.FailureOf(o)) {
            TriesAreSteps(u, cfg, p, l, targets, max, net, t + 1, 0);
            assert tries[1..] == M.Tried(targets, max, net, t + 1, 0).1;
          } else if a < max - 1 && net.cancelled(t, a) {
            NoTries(u, cfg, p, l, M.Cancelled);
            NothingTried(net, p, |u.transfers|);
            assert tries[1..] == [];
          } else {
            TriesAreSteps(u, cfg, p, l, targets, max, net, t, a + 1);
            assert tries[1..] == M.Tried(targets, max, net, t, a + 1).1;
          }
      }
    }
  }

  lemma NothingTried(net: M.Network, p: Plan, x: nat)
    ensures AllTrySteps(net, [], p, x) == [] && M.Activated(net, []) == []
  {
  }

  lemma FirstTry(net: M.Network, p: Plan, x: nat, t: nat, a: nat, rest: seq<M.Attempt>)
    ensures
      var o := net.At(t, a);
      && AllTrySteps(net, [M.Attempt(t, a)] + rest, p, x)
         == TrySteps(o, p.instance, p.nodeOf(t), p.major, x, p.now) + AllTrySteps(net, rest, p, if o.NotSent? then x else x + 1)
      && M.Activated(net, [M.Attempt(t, a)] + rest)
         == if M.Activates(o) then [t] + M.Activated(net, rest) else M.Activated(net, rest)
  {
    hide TrySteps, M.Activates;
    assert ([M.Attempt(t, a)] + rest)[1..] == rest;
  }

  lemma OneTry(net: M.Network, p: Plan, x: nat, t: nat, a: nat)
    ensures
      var o := net.At(t, a);
      && AllTrySteps(net, [M.Attempt(t, a)], p, x) == TrySteps(o, p.instance, p.nodeOf(t), p.major, x, p.now)
      && M.Activated(net, [M.Attempt(t, a)]) == if M.Activates(o) then [t] else []
  {
    hide TrySteps, M.Activates;
    assert [M.Attempt(t, a)][1..] == [];
  }

  lemma NoTries(w: P.World, cfg: Config, p: Plan, l: LeaseValue, e: M.Ending)
    requires InHandoff(w, p, l) && (e.Cancelled? || e.Exhausted?)
    ensures P.AllowedRun(w, cfg, []) && P.Run(w, cfg, []) == w && Concluded(w, p, l, e, |w.instances|, [])
  {
  }

  /** A failed try starts nothing and leaves the instance in handoff. */
  lemma FailedTry(w: P.World, cfg: Config, p: Plan, l: LeaseValue, t: nat, o: M.Outcome)
    requires InHandoff(w, p, l) && p.Valid() && (o.NotSent? || o.Refused?)
    ensures
      var es := TrySteps(o, p.instance, p.nodeOf(t), p.major, |w.transfers|, p.now);
      && P.AllowedRun(w, cfg, es)
      && InHandoff(P.Run(w, cfg, es), p, l)
      && |P.Run(w, cfg, es).instances| == |w.instances|
      && |P.Run(w, cfg, es).transfers| == |w.transfers| + if o.NotSent? then 0 else 1
  {
    hide P.Step, InHandoff, P.Run, P.AllowedRun;
    if o.Refused? {
      RefusedTry(w, cfg, p, l, p.nodeOf(t));
    } else {
      NoTries(w, cfg, p, l, M.Exhausted);
    }
  }

  // ----- The whole run -----

  /** From ACTIVE_OWNER, the run is an allowed run of the protocol that leaves the source's lease,
      its registration and the started instances as the migration promises. */
  lemma RetryIsARun(w: P.World, cfg: Config, p: Plan, targets: nat, max: int, net: M.Network)
    requires p.Valid() && p.node in w.registered && w.registered[p.node] == p.instance && p.instance < |w.instances|
    requires w.instances[p.instance].node == p.node && w.instances[p.instance].awaiting.None?
    requires w.instances[p.instance].lease.state == ActiveOwner
    ensures
      var l := w.instances[p.instance].lease;
      var (ending, tries) := M.Tried(targets, max, net, 0, 0);
      var es := RetrySteps(net, ending, tries, p, |w.transfers|);
      var u := P.Run(w, cfg, es);
      && P.AllowedRun(w, cfg, es)
      && StartedOn(u, |w.instances|, p, M.Activated(net, tries))
      && u.instances[p.instance].lease == M.Ended(l, ending)
      && (p.node !in u.registered <==> ending.Succeeded?)
  {
    hide M.Tried, M.Activated, AllTrySteps;
    var l := w.instances[p.instance].lease;
    var (ending, tries) := M.Tried(targets, max, net, 0, 0);
    var steps := AllTrySteps(net, tries, p, |w.transfers|);
    var back := if ending.Cancelled? || ending.Exhausted? then [P.Revert(p.node)] else [];
    P.OneStep(w, cfg, P.Handoff(p.node));
    var v := P.Step(w, cfg, P.Handoff(p.node));
    assert InHandoff(v, p, l);
    TriesAreSteps(v, cfg, p, l, targets, max, net, 0, 0);
    RunConcat(w, cfg, [P.Handoff(p.node)], steps);
    RunConcat(w, cfg, [P.Handoff(p.node)] + steps, back);
    Returned(P.Run(v, cfg, steps), cfg, p, l, ending, |w.instances|, M.Activated(net, tries));
  }

  lemma Returned(w: P.World, cfg: Config, p: Plan, l: LeaseValue, e: M.Ending, before: nat, started: seq<nat>)
    requires Concluded(w, p, l, e, before, started) && l.state == ActiveOwner
    ensures
      var es := if e.Cancelled? || e.Exhausted? then [P.Revert(p.node)] else [];
      var u := P.Run(w, cfg, es);
      && P.AllowedRun(w, cfg, es)
      && StartedOn(u, before, p, started)
      && u.instances[p.instance].lease == M.Ended(l, e)
      && (p.node !in u.registered <==> e.Succeeded?)
  {
    if e.Cancelled? || e.Exhausted? {
      P.OneStep(w, cfg, P.Revert(p.node));
      var u := P.Step(w, cfg, P.Revert(p.node));
      forall k | 0 <= k < |started|
        ensures u.instances[before + k].node == p.nodeOf(started[k]) && u.instances[before + k].lease.state == ActiveOwner
      {
        assert u.instances[before + k] == w.instances[before + k];
      }
    }
  }

  /** So, after any allowed run of all nodes and then a whole migration, at most one instance
      anywhere owns the agent. */
  lemma OneOwnerThroughMigration(cfg: Config, now: int, es: seq<P.Event>, p: Plan, targets: nat, max: int, net: M.Network)
    requires P.AllowedRun(P.Initially(cfg, now), cfg, es) && p.Valid()
    requires
      var w := P.Run(P.Initially(cfg, now), cfg, es);
      && p.node in w.registered && w.registered[p.node] == p.instance && p.instance < |w.instances|
      && w.instances[p.instance].node == p.node && w.instances[p.instance].awaiting.None?
      && w.instances[p.instance].lease.state == ActiveOwner
    ensures
      var w := P.Run(P.Initially(cfg, now), cfg, es);
      var (ending, tries) := M.Tried(targets, max, net, 0, 0);
      P.AtMostOneOwner(P.Run(w, cfg, RetrySteps(net, ending, tries, p, |w.transfers|)))
  {
    hide P.Run, P.AllowedRun, P.AtMostOneOwner, M.Tried, RetrySteps;
    var w := P.Run(P.Initially(cfg, now), cfg, es);
    var (ending, tries) := M.Tried(targets, max, net, 0, 0);
    var steps := RetrySteps(net, ending, tries, p, |w.transfers|);
    RetryIsARun(w, cfg, p, targets, max, net);
    RunConcat(P.Initially(cfg, now), cfg, es, steps);
    P.OneOwner(cfg, now, es + steps);
  }
}
