/**
  The demand token between the clients and the reconnect loop: socksRuntime
  (cmd/socks_runtime.go) as cmd/proxy.go wires it into MaintainTunnel, and the same
  protocol in cmd/l3_udp_tunnel.go, where the first datagram starts the loop. Clients
  and loop interleave at every atomic access and channel operation.
 */
module DemandGate {
  import opened TunnelLoop

  type Tid = nat

  datatype Stage =
    | NotStarted
    | AtTop
    | Connecting
    | GoingUp                    // OnConnected, before SetTunnelUp(true)
    | Draining                   // OnConnected, before drainDemand
    | Serving
    | GoingDown                  // OnDisconnected, before SetTunnelUp(false)
    | Deciding(err: bool)
    | Parked                     // WaitForReconnectDemand
    | Sleeping
    | Paused
    | Stopped

  // DropIfDisconnected runs Check and Signal; DialUDP runs Start, Check, Signal
  // when the leg is down, and Dialing, Recheck, Signal when the dial fails.
  datatype Client = Start | Check(dials: bool) | Dialing | Recheck | Signal | Finished

  datatype Event =
    | Accept(t: Tid)                         // DropIfDisconnected is called
    | Datagram(t: Tid)                       // DialUDP is called
    | Client(t: Tid, ok: bool)               // one client step
    | Loop(connects: bool, err: bool)        // one loop step
    | Cancel                                 // ctx is done

  // `asked`: some signal has completed since the last OnDisconnected.
  // `clean`: no client stood between its flag check and its signal at the last drain.
  datatype Gate = Gate(cfg: Config, up: bool, token: bool, stage: Stage, attempt: nat, done: bool,
                       asked: bool, clean: bool)

  datatype State = State(g: Gate, clients: map<Tid, Client>)

  function Init(cfg: Config, started: bool): State {
    State(Gate(cfg, false, false, if started then AtTop else NotStarted, 0, false, false, false), map[])
  }

  predicate AboutToSignal(clients: map<Tid, Client>) {
    exists t | t in clients :: clients[t] == Signal
  }

  function SignalDemand(g: Gate): Gate {
    g.(token := true, asked := true)
  }

  function ActClient(g: Gate, c: Client, ok: bool): (Gate, Client) {
    match c
    case Start => (if g.stage == NotStarted then g.(stage := AtTop) else g, Check(true))
    case Check(dials) => (g, if !g.up then Signal else if dials then Dialing else Finished)
    case Dialing => (g, if ok then Finished else Recheck)
    case Recheck => (g, if !g.up then Signal else Finished)
    case Signal => (SignalDemand(g), Finished)
    case Finished => (g, c)
  }

  // `racing`: some client stands between its check and its signal.
  function ActLoop(g: Gate, racing: bool, connects: bool, err: bool): Gate {
    match g.stage
    case NotStarted => g
    case AtTop => g.(stage := if g.done then Stopped else Connecting)
    case Connecting =>
      if connects then g.(stage := GoingUp) else g.(stage := Deciding(true), attempt := g.attempt + 1)
    case GoingUp => g.(up := true, stage := Draining)
    case Draining => g.(token := false, stage := Serving, clean := !racing)
    case Serving => g.(stage := GoingDown)
    case GoingDown => g.(up := false, attempt := 0, stage := Deciding(err || g.done), asked := false)
    case Deciding(failed) =>
      if g.done then g.(stage := Stopped)
      else
        (match Decide(g.cfg, g.attempt, failed)
         case WaitForDemand => g.(stage := Parked)
         case GiveUp => g.(stage := Paused)
         case SleepThenRetry => g.(stage := Sleeping)
         case RetryNow => g.(stage := AtTop))
    case Parked =>
      // With ctx done and the token present, select may take either.
      if g.token && (!g.done || connects) then g.(token := false, stage := AtTop)
      else if g.done then g.(stage := Stopped)
      else g
    case Sleeping => g.(stage := if g.done && !connects then Stopped else AtTop)
    case Paused => if g.done then g.(stage := Stopped) else g
    case Stopped => g
  }

  function Step(s: State, e: Event): State {
    match e
    case Accept(t) => if t in s.clients then s else s.(clients := s.clients[t := Check(false)])
    case Datagram(t) => if t in s.clients then s else s.(clients := s.clients[t := Start])
    case Client(t, ok) =>
      if t !in s.clients then s
      else var (g, c) := ActClient(s.g, s.clients[t], ok); State(g, s.clients[t := c])
    case Loop(connects, err) => s.(g := ActLoop(s.g, AboutToSignal(s.clients), connects, err))
    case Cancel => s.(g := s.g.(done := true))
  }

  function RunAll(s: State, es: seq<Event>): State {
    if es == [] then s else Step(RunAll(s, es[..|es| - 1]), es[|es| - 1])
  }

  // Between SetTunnelUp(false) and the next connect, after a loss.
  predicate IsDown(g: Gate) {
    g.attempt == 0 && (g.stage == Deciding(true) || g.stage == Parked)
  }

  // Between drainDemand and SetTunnelUp(false).
  predicate IsServing(g: Gate) {
    g.stage == Serving || g.stage == GoingDown
  }

  predicate Inv(g: Gate, racing: bool) {
    && (g.stage == Draining || IsServing(g) <==> g.up)
    && (g.stage == Parked ==> g.attempt == 0)
    && (IsDown(g) && g.asked ==> g.token)
    && (IsServing(g) && g.clean ==> !g.token && !racing)
    && (IsDown(g) && g.clean && g.token ==> g.asked)
  }

  lemma SignalAfter(clients: map<Tid, Client>, t: Tid, c: Client)
    ensures AboutToSignal(clients[t := c]) ==> c == Signal || AboutToSignal(clients)
  {
    var clients' := clients[t := c];
    if AboutToSignal(clients') && c != Signal {
      var u :| u in clients' && clients'[u] == Signal;
      assert u in clients && clients[u] == Signal;
    }
  }

  lemma ClientKeepsInv(g: Gate, c: Client, ok: bool, racing: bool, racing': bool)
    requires Inv(g, racing) && (c == Signal ==> racing)
    requires racing' ==> ActClient(g, c, ok).1 == Signal || racing
    ensures Inv(ActClient(g, c, ok).0, racing')
  {
  }

  predicate IsUpStage(stage: Stage) {
    stage == GoingUp || stage == Draining || stage == Serving || stage == GoingDown
  }

  lemma UpStepKeepsInv(g: Gate, racing: bool, connects: bool, err: bool)
    requires Inv(g, racing) && IsUpStage(g.stage)
    ensures Inv(ActLoop(g, racing, connects, err), racing)
  {
  }

  lemma DecidingStepKeepsInv(g: Gate, racing: bool, connects: bool, err: bool)
    requires Inv(g, racing) && g.stage.Deciding?
    ensures Inv(ActLoop(g, racing, connects, err), racing)
  {
  }

  lemma LoopKeepsInv(g: Gate, racing: bool, connects: bool, err: bool)
    requires Inv(g, racing)
    ensures Inv(ActLoop(g, racing, connects, err), racing)
  {
    if IsUpStage(g.stage) {
      UpStepKeepsInv(g, racing, connects, err);
    } else if g.stage.Deciding? {
      DecidingStepKeepsInv(g, racing, connects, err);
    }
  }

  lemma StepKeepsInv(s: State, e: Event)
    requires Inv(s.g, AboutToSignal(s.clients))
    ensures Inv(Step(s, e).g, AboutToSignal(Step(s, e).clients))
  {
    var s' := Step(s, e);
    match e
    case Accept(t) => SignalAfter(s.clients, t, Check(false));
    case Datagram(t) => SignalAfter(s.clients, t, Start);
    case Client(t, ok) =>
      if t in s.clients {
        SignalAfter(s.clients, t, s'.clients[t]);
        ClientKeepsInv(s.g, s.clients[t], ok, AboutToSignal(s.clients), AboutToSignal(s'.clients));
      }
    case Loop(connects, err) => LoopKeepsInv(s.g, AboutToSignal(s.clients), connects, err);
    case Cancel =>
  }

  lemma {:induction false} RunKeepsInv(cfg: Config, started: bool, es: seq<Event>)
    ensures var s := RunAll(Init(cfg, started), es); Inv(s.g, AboutToSignal(s.clients))
  {
    if es != [] {
      RunKeepsInv(cfg, started, es[..|es| - 1]);
      StepKeepsInv(RunAll(Init(cfg, started), es[..|es| - 1]), es[|es| - 1]);
    }
  }

  /** No lost wakeup: once a client has signalled since the last OnDisconnected, a
      parked loop finds the token and its next step goes on to reconnect. */
  lemma NoLostWakeup(cfg: Config, started: bool, es: seq<Event>, connects: bool, err: bool)
    requires var g := RunAll(Init(cfg, started), es).g; g.stage == Parked && g.asked
    ensures var s := RunAll(Init(cfg, started), es);
            s.g.token && (!s.g.done ==> Step(s, Loop(connects, err)).g.stage == AtTop)
  {
    RunKeepsInv(cfg, started, es);
  }

  /** No stale wakeup: if no client stood between its check and its signal when
      OnConnected drained, there is no token while the tunnel is up, and a parked loop
      goes on only after a signal that came after the loss. */
  lemma NoStaleWakeup(cfg: Config, started: bool, es: seq<Event>, connects: bool, err: bool)
    requires RunAll(Init(cfg, started), es).g.clean
    ensures var s := RunAll(Init(cfg, started), es);
            && (IsServing(s.g) ==> !s.g.token)
            && (s.g.stage == Parked && Step(s, Loop(connects, err)).g.stage == AtTop ==> s.g.asked)
  {
    RunKeepsInv(cfg, started, es);
  }

  lemma Extend(cfg: Config, es: seq<Event>, s: State, e: Event) returns (es': seq<Event>, s': State)
    requires s == RunAll(Init(cfg, true), es)
    ensures s' == Step(s, e) && s' == RunAll(Init(cfg, true), es')
  {
    es', s' := es + [e], Step(s, e);
    assert es'[..|es|] == es;
  }

  lemma StragglerServed(cfg: Config) returns (es: seq<Event>, s: State)
    ensures s == RunAll(Init(cfg, true), es)
    ensures s.g == Gate(cfg, true, false, Serving, 0, false, false, false)
    ensures 0 in s.clients && s.clients[0] == Signal
  {
    es, s := [], Init(cfg, true);
    es, s := Extend(cfg, es, s, Accept(0));
    es, s := Extend(cfg, es, s, Client(0, true));
    assert s.clients[0] == Signal;
    es, s := Extend(cfg, es, s, Loop(true, true));
    es, s := Extend(cfg, es, s, Loop(true, true));
    assert s.g.stage == GoingUp;
    es, s := Extend(cfg, es, s, Loop(true, true));
    es, s := Extend(cfg, es, s, Loop(true, true));
  }

  lemma StragglerParked(cfg: Config) returns (es: seq<Event>, s: State)
    requires cfg.Lazy()
    ensures s == RunAll(Init(cfg, true), es)
    ensures s.g == Gate(cfg, false, true, Parked, 0, false, false, false)
  {
    es, s := StragglerServed(cfg);
    es, s := Extend(cfg, es, s, Client(0, true));
    assert s.g == Gate(cfg, true, true, Serving, 0, false, true, false);
    es, s := Extend(cfg, es, s, Loop(true, true));
    es, s := Extend(cfg, es, s, Loop(true, true));
    assert s.g == Gate(cfg, false, true, Deciding(true), 0, false, false, false);
    es, s := Extend(cfg, es, s, Loop(true, true));
  }

  /** The guard is needed. A client that sees the tunnel down and signals only after
      the drain leaves a token behind: the lazy loop leaves its park although nobody
      has asked for the tunnel since it went down. */
  lemma StaleWakeupHappens(cfg: Config)
    requires cfg.Lazy()
    ensures exists es ::
              var s := RunAll(Init(cfg, true), es);
              && !s.g.clean && !s.g.asked && !s.g.done && s.g.stage == Parked
              && Step(s, Loop(true, true)).g.stage == AtTop
  {
    var es, s := StragglerParked(cfg);
  }

  // ---- The exact condition, seen at the drain.

  // A parked loop whose next step reconnects although nobody signalled since the loss.
  predicate StaleWakeup(s: State) {
    s.g.stage == Parked && !s.g.asked && Step(s, Loop(true, true)).g.stage == AtTop
  }

  predicate DrainsAt(s: State, more: seq<Event>, i: nat)
    requires i < |more|
  {
    more[i].Loop? && RunAll(s, more[..i]).g.stage == Draining
  }

  predicate NoDrain(s: State, more: seq<Event>) {
    forall i: nat | i < |more| :: !DrainsAt(s, more, i)
  }

  lemma CleanStays(s: State, e: Event)
    requires !(e.Loop? && s.g.stage == Draining)
    ensures Step(s, e).g.clean == s.g.clean
  {
  }

  lemma NoDrainBefore(s: State, more: seq<Event>, n: nat)
    requires NoDrain(s, more) && n <= |more|
    ensures NoDrain(s, more[..n])
  {
    forall i: nat | i < n
      ensures !DrainsAt(s, more[..n], i)
    {
      assert !DrainsAt(s, more, i) && more[..n][..i] == more[..i];
    }
  }

  lemma {:induction false} CleanLasts(s: State, more: seq<Event>)
    requires NoDrain(s, more)
    ensures RunAll(s, more).g.clean == s.g.clean
  {
    if more != [] {
      var n := |more| - 1;
      NoDrainBefore(s, more, n);
      CleanLasts(s, more[..n]);
      assert !DrainsAt(s, more, n);
      CleanStays(RunAll(s, more[..n]), more[n]);
    }
  }

  lemma {:induction false} RunConcat(s: State, a: seq<Event>, b: seq<Event>)
    ensures RunAll(s, a + b) == RunAll(RunAll(s, a), b)
  {
    if b == [] {
      assert a + b == a;
    } else {
      assert (a + b)[..|a + b| - 1] == a + b[..|b| - 1];
      RunConcat(s, a, b[..|b| - 1]);
    }
  }

  // After the drain of `s`, without another one, the loop ends in a stale wakeup.
  predicate DrainThenStale(s: State, more: seq<Event>, connects: bool, err: bool) {
    var drained := Step(s, Loop(connects, err));
    NoDrain(drained, more) && StaleWakeup(RunAll(drained, more))
  }

  lemma OneMore(s: State, more: seq<Event>, e: Event) returns (longer: seq<Event>)
    requires NoDrain(s, more) && !(e.Loop? && RunAll(s, more).g.stage == Draining)
    ensures longer == more + [e] && NoDrain(s, longer) && RunAll(s, longer) == Step(RunAll(s, more), e)
  {
    longer := more + [e];
    assert longer[..|more|] == more;
    forall i: nat | i < |longer|
      ensures !DrainsAt(s, longer, i)
    {
      if i < |more| {
        assert !DrainsAt(s, more, i) && longer[..i] == more[..i];
      }
    }
  }

  // The connection is lost while a token is there.
  lemma LossParks(s: State) returns (more: seq<Event>)
    requires s.g.stage == Serving && s.g.cfg.Lazy() && !s.g.done && s.g.token
    ensures NoDrain(s, more) && StaleWakeup(RunAll(s, more))
  {
    var e := Loop(true, true);
    more := OneMore(s, [], e);
    assert RunAll(s, more).g == s.g.(stage := GoingDown);
    more := OneMore(s, more, e);
    assert RunAll(s, more).g == s.g.(up := false, attempt := 0, stage := Deciding(true), asked := false);
    more := OneMore(s, more, e);
    assert RunAll(s, more).g == s.g.(up := false, attempt := 0, stage := Parked, asked := false);
  }

  lemma NoDrainBehind(s: State, e: Event, more: seq<Event>)
    requires !(e.Loop? && s.g.stage == Draining) && NoDrain(Step(s, e), more)
    ensures NoDrain(s, [e] + more) && RunAll(s, [e] + more) == RunAll(Step(s, e), more)
  {
    assert [e][..0] == [];
    assert RunAll(s, [e]) == Step(s, e);
    RunConcat(s, [e], more);
    forall i: nat | i < |[e] + more|
      ensures !DrainsAt(s, [e] + more, i)
    {
      if i == 0 {
        assert ([e] + more)[..0] == [];
      } else {
        assert !DrainsAt(Step(s, e), more, i - 1);
        assert ([e] + more)[..i] == [e] + more[..i - 1];
        RunConcat(s, [e], more[..i - 1]);
      }
    }
  }

  // The straggler signals once the drain is over; then the connection is lost.
  lemma StragglerWakes(s: State, t: Tid) returns (more: seq<Event>)
    requires s.g.stage == Serving && s.g.cfg.Lazy() && !s.g.done && t in s.clients && s.clients[t] == Signal
    ensures NoDrain(s, more) && StaleWakeup(RunAll(s, more))
  {
    var e := Client(t, true);
    assert Step(s, e).g == s.g.(token := true, asked := true);
    var rest := LossParks(Step(s, e));
    NoDrainBehind(s, e, rest);
    more := [e] + rest;
  }

  /** A drain of a lazy loop that has not been cancelled can be followed by a stale wakeup
      if and only if some client stands between its check and its signal there. */
  lemma DrainThenStaleIff(cfg: Config, started: bool, es: seq<Event>, connects: bool, err: bool)
    requires var g := RunAll(Init(cfg, started), es).g; g.stage == Draining && g.cfg.Lazy() && !g.done
    ensures var s := RunAll(Init(cfg, started), es);
            (exists more :: DrainThenStale(s, more, connects, err)) <==> AboutToSignal(s.clients)
  {
    var s := RunAll(Init(cfg, started), es);
    var drained := Step(s, Loop(connects, err));
    if AboutToSignal(s.clients) {
      var t :| t in s.clients && s.clients[t] == Signal;
      var more := StragglerWakes(drained, t);
      assert DrainThenStale(s, more, connects, err);
    } else {
      forall more | DrainThenStale(s, more, connects, err)
        ensures false
      {
        CleanDrainNeverStale(cfg, started, es, connects, err, more);
      }
    }
  }

  lemma CleanDrainNeverStale(cfg: Config, started: bool, es: seq<Event>, connects: bool, err: bool, more: seq<Event>)
    requires var s := RunAll(Init(cfg, started), es);
             s.g.stage == Draining && !AboutToSignal(s.clients) && NoDrain(Step(s, Loop(connects, err)), more)
    ensures !StaleWakeup(RunAll(Step(RunAll(Init(cfg, started), es), Loop(connects, err)), more))
  {
    var s, e := RunAll(Init(cfg, started), es), Loop(connects, err);
    CleanLasts(Step(s, e), more);
    assert (es + [e])[..|es|] == es;
    RunConcat(Init(cfg, started), es + [e], more);
    NoStaleWakeup(cfg, started, es + [e] + more, true, true);
  }
}
