/**
  Who asks for the tunnel in the runs of DemandGate: every client that found it down does,
  be it a dropped SOCKS connection (cmd/socks_runtime.go) or a datagram of the lazy UDP leg
  (cmd/l3_udp_tunnel.go), and a loop parked behind such a client goes on.
 */
module DemandSignals {
  import TunnelLoop
  import opened DemandGate

  type Config = TunnelLoop.Config

  function At(cfg: Config, started: bool, es: seq<Event>, i: nat): State
    requires i <= |es|
  {
    RunAll(Init(cfg, started), es[..i])
  }

  predicate Moves(s: State, e: Event, t: Tid) {
    e.Client? && e.t == t && t in s.clients
  }

  // Client `t` reads the flag, at first or after a failed dial, and finds it down.
  predicate SeesDown(s: State, e: Event, t: Tid) {
    Moves(s, e, t) && (s.clients[t].Check? || s.clients[t].Recheck?) && !s.g.up
  }

  predicate Asks(s: State, e: Event, t: Tid) {
    Moves(s, e, t) && s.clients[t] == Signal
  }

  // OnDisconnected lowers the flag.
  predicate Loses(s: State, e: Event) {
    e.Loop? && s.g.stage == GoingDown
  }

  predicate SeesDownAt(cfg: Config, started: bool, es: seq<Event>, i: nat, t: Tid) {
    i < |es| && SeesDown(At(cfg, started, es, i), es[i], t)
  }

  predicate AsksAt(cfg: Config, started: bool, es: seq<Event>, i: nat, t: Tid) {
    i < |es| && Asks(At(cfg, started, es, i), es[i], t)
  }

  predicate LosesAt(cfg: Config, started: bool, es: seq<Event>, i: nat) {
    i < |es| && Loses(At(cfg, started, es, i), es[i])
  }

  // No connection has been lost after event `i`.
  predicate NoLossAfter(cfg: Config, started: bool, es: seq<Event>, i: nat) {
    forall k: nat | i < k < |es| :: !LosesAt(cfg, started, es, k)
  }

  ghost predicate AskedSinceLoss(cfg: Config, started: bool, es: seq<Event>) {
    exists i: nat, t: Tid :: AsksAt(cfg, started, es, i, t) && NoLossAfter(cfg, started, es, i)
  }

  lemma AtPrefix(cfg: Config, started: bool, es: seq<Event>, e: Event, i: nat)
    requires i <= |es|
    ensures At(cfg, started, es + [e], i) == At(cfg, started, es, i)
    ensures i < |es| ==> (es + [e])[i] == es[i]
  {
    assert (es + [e])[..i] == es[..i];
  }

  lemma RunOneMore(s: State, es: seq<Event>, e: Event)
    ensures RunAll(s, es + [e]) == Step(RunAll(s, es), e)
  {
    var all := es + [e];
    assert all[..|all| - 1] == es && all[|all| - 1] == e;
    assert RunAll(s, all) == Step(RunAll(s, all[..|all| - 1]), all[|all| - 1]);
  }

  lemma AtEnd(cfg: Config, started: bool, es: seq<Event>, e: Event)
    ensures At(cfg, started, es + [e], |es|) == RunAll(Init(cfg, started), es)
    ensures RunAll(Init(cfg, started), es + [e]) == Step(RunAll(Init(cfg, started), es), e)
  {
    assert (es + [e])[..|es|] == es;
    RunOneMore(Init(cfg, started), es, e);
  }

  lemma AskStays(cfg: Config, started: bool, es: seq<Event>, e: Event)
    requires AskedSinceLoss(cfg, started, es) && !Loses(RunAll(Init(cfg, started), es), e)
    ensures AskedSinceLoss(cfg, started, es + [e])
  {
    var i: nat, t: Tid :| AsksAt(cfg, started, es, i, t) && NoLossAfter(cfg, started, es, i);
    AtPrefix(cfg, started, es, e, i);
    AtEnd(cfg, started, es, e);
    forall k: nat | i < k < |es + [e]|
      ensures !LosesAt(cfg, started, es + [e], k)
    {
      AtPrefix(cfg, started, es, e, k);
      assert !LosesAt(cfg, started, es, k);
    }
    assert AsksAt(cfg, started, es + [e], i, t) && NoLossAfter(cfg, started, es + [e], i);
  }

  lemma AskArrives(cfg: Config, started: bool, es: seq<Event>, e: Event, t: Tid)
    requires Asks(RunAll(Init(cfg, started), es), e, t)
    ensures AskedSinceLoss(cfg, started, es + [e])
  {
    AtEnd(cfg, started, es, e);
    assert AsksAt(cfg, started, es + [e], |es|, t) && NoLossAfter(cfg, started, es + [e], |es|);
  }

  lemma AskWasThere(cfg: Config, started: bool, es: seq<Event>, e: Event)
    requires AskedSinceLoss(cfg, started, es + [e])
    requires !(e.Client? && Asks(RunAll(Init(cfg, started), es), e, e.t))
    ensures AskedSinceLoss(cfg, started, es) && !Loses(RunAll(Init(cfg, started), es), e)
  {
    var all := es + [e];
    var i: nat, t: Tid :| AsksAt(cfg, started, all, i, t) && NoLossAfter(cfg, started, all, i);
    AtEnd(cfg, started, es, e);
    assert i < |es|;
    assert !LosesAt(cfg, started, all, |es|);
    AtPrefix(cfg, started, es, e, i);
    forall k: nat | i < k < |es|
      ensures !LosesAt(cfg, started, es, k)
    {
      AtPrefix(cfg, started, es, e, k);
      assert !LosesAt(cfg, started, all, k);
    }
    assert AsksAt(cfg, started, es, i, t) && NoLossAfter(cfg, started, es, i);
  }

  lemma StepAsked(s: State, e: Event)
    ensures Step(s, e).g.asked <==> (e.Client? && Asks(s, e, e.t)) || (s.g.asked && !Loses(s, e))
  {
  }

  /** The gate's `asked` means what it says: some client's signal has completed since the
      last loss. */
  lemma {:induction false} AskedIff(cfg: Config, started: bool, es: seq<Event>)
    ensures RunAll(Init(cfg, started), es).g.asked <==> AskedSinceLoss(cfg, started, es)
  {
    if es != [] {
      var before, e := es[..|es| - 1], es[|es| - 1];
      assert before + [e] == es;
      AskedIff(cfg, started, before);
      var s := RunAll(Init(cfg, started), before);
      StepAsked(s, e);
      if e.Client? && Asks(s, e, e.t) {
        AskArrives(cfg, started, before, e, e.t);
      } else if AskedSinceLoss(cfg, started, es) {
        AskWasThere(cfg, started, before, e);
      } else if AskedSinceLoss(cfg, started, before) && !Loses(s, e) {
        AskStays(cfg, started, before, e);
      }
    } else {
      assert !AskedSinceLoss(cfg, started, es);
    }
  }

  /** A client that found the tunnel down asks for it before it finishes. */
  lemma {:induction false} SeenDownIsAsked(cfg: Config, started: bool, es: seq<Event>, i: nat, t: Tid)
    returns (k: nat)
    requires SeesDownAt(cfg, started, es, i, t)
    ensures var s := RunAll(Init(cfg, started), es);
            t in s.clients && (s.clients[t] != Signal ==> i < k && AsksAt(cfg, started, es, k, t))
    decreases |es|
  {
    var before, e := es[..|es| - 1], es[|es| - 1];
    assert before + [e] == es;
    AtEnd(cfg, started, before, e);
    k := |before|;
    if i < |before| {
      AtPrefix(cfg, started, before, e, i);
      var j := SeenDownIsAsked(cfg, started, before, i, t);
      var s := RunAll(Init(cfg, started), before);
      if s.clients[t] != Signal {
        k := j;
        AtPrefix(cfg, started, before, e, k);
      }
    }
  }

  /** A loop parked behind a client that was turned away since the loss does not stay
      parked: the token is there, and its next step reconnects. */
  lemma TurnedAwayWakes(cfg: Config, started: bool, es: seq<Event>, i: nat, t: Tid,
                        connects: bool, err: bool)
    requires SeesDownAt(cfg, started, es, i, t) && NoLossAfter(cfg, started, es, i)
    requires var s := RunAll(Init(cfg, started), es);
             t in s.clients && s.clients[t] == Finished && s.g.stage == Parked
    ensures var s := RunAll(Init(cfg, started), es);
            s.g.asked && s.g.token && (!s.g.done ==> Step(s, Loop(connects, err)).g.stage == AtTop)
  {
    var k := SeenDownIsAsked(cfg, started, es, i, t);
    assert NoLossAfter(cfg, started, es, k);
    AskedIff(cfg, started, es);
    NoLostWakeup(cfg, started, es, connects, err);
  }

  // Why a client finishes: it asked, or it found the tunnel up, or its dial succeeded.
  predicate Ends(s: State, e: Event, t: Tid) {
    && Moves(s, e, t)
    && match s.clients[t]
       case Signal => true
       case Check(dials) => !dials && s.g.up
       case Dialing => e.ok
       case Recheck => s.g.up
       case _ => false
  }

  predicate EndsAt(cfg: Config, started: bool, es: seq<Event>, i: nat, t: Tid) {
    i < |es| && Ends(At(cfg, started, es, i), es[i], t)
  }

  lemma StepFinishes(s: State, e: Event, t: Tid)
    requires t in Step(s, e).clients && Step(s, e).clients[t] == Finished
    ensures Ends(s, e, t) || (t in s.clients && s.clients[t] == Finished)
  {
  }

  /** A client is not given up silently: one that has finished asked for the tunnel, found
      it up, or got its connection. */
  lemma {:induction false} FinishedHasReason(cfg: Config, started: bool, es: seq<Event>, t: Tid)
    returns (i: nat)
    requires var s := RunAll(Init(cfg, started), es); t in s.clients && s.clients[t] == Finished
    ensures EndsAt(cfg, started, es, i, t)
  {
    var before, e := es[..|es| - 1], es[|es| - 1];
    assert before + [e] == es;
    AtEnd(cfg, started, before, e);
    StepFinishes(RunAll(Init(cfg, started), before), e, t);
    if Ends(RunAll(Init(cfg, started), before), e, t) {
      i := |before|;
    } else {
      i := FinishedHasReason(cfg, started, before, t);
      AtPrefix(cfg, started, before, e, i);
    }
  }

  lemma LoopStaysStarted(g: Gate, racing: bool, connects: bool, err: bool)
    requires g.stage != NotStarted
    ensures ActLoop(g, racing, connects, err).stage != NotStarted
  {
  }

  lemma StepStaysStarted(s: State, e: Event)
    requires s.g.stage != NotStarted
    ensures Step(s, e).g.stage != NotStarted
  {
    if e.Loop? {
      LoopStaysStarted(s.g, AboutToSignal(s.clients), e.connects, e.err);
    }
  }

  lemma {:induction false} StaysStarted(s: State, es: seq<Event>)
    requires s.g.stage != NotStarted
    ensures RunAll(s, es).g.stage != NotStarted
  {
    if es != [] {
      StaysStarted(s, es[..|es| - 1]);
      StepStaysStarted(RunAll(s, es[..|es| - 1]), es[|es| - 1]);
    }
  }

  /** The first datagram starts the loop, before it looks at the flag, and for good. */
  lemma DatagramStarts(s: State, t: Tid, ok: bool, more: seq<Event>)
    requires t in s.clients && s.clients[t] == Start
    ensures var s' := Step(s, Client(t, ok));
            s'.clients[t] == Check(true) && s'.g.up == s.g.up && RunAll(s', more).g.stage != NotStarted
  {
    StaysStarted(Step(s, Client(t, ok)), more);
  }

  function StepsLeft(c: Client): nat {
    match c
    case Start => 5
    case Check(_) => 4
    case Dialing => 3
    case Recheck => 2
    case Signal => 1
    case Finished => 0
  }

  /** No client waits for the tunnel: each of its steps brings it nearer its end. */
  lemma ClientAdvances(g: Gate, c: Client, ok: bool)
    requires c != Finished
    ensures StepsLeft(ActClient(g, c, ok).1) < StepsLeft(c)
  {
  }
}
