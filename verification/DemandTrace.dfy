/**
  The loop of DemandGate is the loop of TunnelLoop: what it reports in any run, whatever
  the clients do, is a legal trace of MaintainTunnel (api/tunnel.go). So the cap, the
  delays, the alternating callbacks and the one demand per loss hold of the gate as well.
 */
module DemandTrace {
  import opened TunnelLoop
  import DemandGate

  // What one loop step reports, seen from the stages before and after it.
  function Report(g: DemandGate.Gate, g': DemandGate.Gate, err: bool): seq<Event> {
    match g.stage
    case Connecting => if g'.stage.Deciding? then [ConnectFailed] else []
    case GoingUp => [Up]
    case GoingDown => [Down(err || g.done)]
    case Deciding(_) =>
      (match g'.stage
       case Sleeping => [Delay(g.attempt)]
       case Paused => [Pause]
       case AtTop => [Reset]
       case _ => [])
    case Parked => if g'.stage.AtTop? then [Demand, Reset] else []
    case _ => []
  }

  function TraceOf(cfg: Config, started: bool, es: seq<DemandGate.Event>): seq<Event> {
    if es == [] then []
    else
      var before, e := es[..|es| - 1], es[|es| - 1];
      var s := DemandGate.RunAll(DemandGate.Init(cfg, started), before);
      TraceOf(cfg, started, before) + if e.Loop? then Report(s.g, DemandGate.Step(s, e).g, e.err) else []
  }

  // Where the loop stands, told by the past of its trace.
  predicate Agrees(g: DemandGate.Gate, p: Past) {
    && (p.open <==> g.stage.Draining? || g.stage.Serving? || g.stage.GoingDown?)
    && (if p.open then p.fails == 0 else g.attempt == p.fails)
    && match g.stage
       case Deciding(failed) =>
         && p.waits == 0 && p.delays == 0 && p.resets == 0
         && (if g.attempt > 0 then p.failed && failed else !p.failed && p.lost == failed && p.ended == !failed)
         && !(p.lost && p.ended) && (g.attempt > 0 ==> !p.lost && !p.ended)
         && (g.cfg.cap > 0 ==> g.attempt <= g.cfg.cap)
       case Parked =>
         g.cfg.Lazy() && p.lost && !p.ended && !p.failed && p.waits == 0 && p.delays == 0 && p.resets == 0
         && p.fails == 0
       case Paused => g.cfg.cap > 0 && g.attempt == g.cfg.cap
       case Stopped => g.done
       case _ => p.open || Allowed(g.cfg, p, Up)
  }

  ghost predicate Follows(g: DemandGate.Gate, trace: seq<Event>) {
    Legal(g.cfg, trace) && Agrees(g, PastOf(trace))
  }

  lemma Append(cfg: Config, trace: seq<Event>, e: Event)
    requires Legal(cfg, trace) && Allowed(cfg, PastOf(trace), e)
    ensures Legal(cfg, trace + [e]) && PastOf(trace + [e]) == Extend(PastOf(trace), e)
  {
    var t := trace + [e];
    forall i | 0 <= i < |t|
      ensures AllowedAt(cfg, t, i)
    {
      PastOfPrefix(trace, e, i);
      assert i < |trace| ==> AllowedAt(cfg, trace, i);
    }
    PastOfPrefix(trace, e, |trace|);
  }

  // The past once the report has been added.
  function PastAfter(p: Past, report: seq<Event>): Past
    requires |report| <= 2
  {
    if report == [] then p
    else if |report| == 1 then Extend(p, report[0])
    else Extend(Extend(p, report[0]), report[1])
  }

  predicate Acceptable(cfg: Config, p: Past, report: seq<Event>)
    requires |report| <= 2
  {
    && (|report| > 0 ==> Allowed(cfg, p, report[0]))
    && (|report| == 2 ==> Allowed(cfg, Extend(p, report[0]), report[1]))
  }

  lemma DecidingAgrees(g: DemandGate.Gate, p: Past, racing: bool, connects: bool, err: bool)
    requires Agrees(g, p) && g.stage.Deciding?
    ensures var g' := DemandGate.ActLoop(g, racing, connects, err);
            Acceptable(g.cfg, p, Report(g, g', err)) && Agrees(g', PastAfter(p, Report(g, g', err)))
  {
  }

  lemma ParkedAgrees(g: DemandGate.Gate, p: Past, racing: bool, connects: bool, err: bool)
    requires Agrees(g, p) && g.stage.Parked?
    ensures var g' := DemandGate.ActLoop(g, racing, connects, err);
            Acceptable(g.cfg, p, Report(g, g', err)) && Agrees(g', PastAfter(p, Report(g, g', err)))
  {
  }

  lemma ConnectedAgrees(g: DemandGate.Gate, p: Past, racing: bool, connects: bool, err: bool)
    requires Agrees(g, p) && DemandGate.IsUpStage(g.stage)
    ensures var g' := DemandGate.ActLoop(g, racing, connects, err);
            Acceptable(g.cfg, p, Report(g, g', err)) && Agrees(g', PastAfter(p, Report(g, g', err)))
  {
  }

  lemma IdleAgrees(g: DemandGate.Gate, p: Past, racing: bool, connects: bool, err: bool)
    requires Agrees(g, p) && !DemandGate.IsUpStage(g.stage) && !g.stage.Deciding? && !g.stage.Parked?
    ensures var g' := DemandGate.ActLoop(g, racing, connects, err);
            Acceptable(g.cfg, p, Report(g, g', err)) && Agrees(g', PastAfter(p, Report(g, g', err)))
  {
  }

  lemma LoopAgrees(g: DemandGate.Gate, p: Past, racing: bool, connects: bool, err: bool)
    requires Agrees(g, p)
    ensures var g' := DemandGate.ActLoop(g, racing, connects, err);
            Acceptable(g.cfg, p, Report(g, g', err)) && Agrees(g', PastAfter(p, Report(g, g', err)))
  {
    if g.stage.Deciding? {
      DecidingAgrees(g, p, racing, connects, err);
    } else if g.stage.Parked? {
      ParkedAgrees(g, p, racing, connects, err);
    } else if DemandGate.IsUpStage(g.stage) {
      ConnectedAgrees(g, p, racing, connects, err);
    } else {
      IdleAgrees(g, p, racing, connects, err);
    }
  }

  lemma AppendReport(cfg: Config, trace: seq<Event>, report: seq<Event>)
    requires Legal(cfg, trace) && |report| <= 2 && Acceptable(cfg, PastOf(trace), report)
    ensures Legal(cfg, trace + report) && PastOf(trace + report) == PastAfter(PastOf(trace), report)
  {
    if report == [] {
      assert trace + report == trace;
    } else {
      Append(cfg, trace, report[0]);
      if |report| == 2 {
        Append(cfg, trace + [report[0]], report[1]);
        assert trace + report == trace + [report[0]] + [report[1]];
      } else {
        assert report == [report[0]];
      }
    }
  }

  lemma LoopKeepsConfig(g: DemandGate.Gate, racing: bool, connects: bool, err: bool)
    ensures DemandGate.ActLoop(g, racing, connects, err).cfg == g.cfg
  {
  }

  lemma OthersAgree(s: DemandGate.State, e: DemandGate.Event, p: Past)
    requires Agrees(s.g, p) && !e.Loop?
    ensures Agrees(DemandGate.Step(s, e).g, p) && DemandGate.Step(s, e).g.cfg == s.g.cfg
  {
  }

  lemma StepFollows(s: DemandGate.State, e: DemandGate.Event, trace: seq<Event>)
    requires Follows(s.g, trace)
    ensures var s' := DemandGate.Step(s, e);
            && s'.g.cfg == s.g.cfg
            && Follows(s'.g, trace + if e.Loop? then Report(s.g, s'.g, e.err) else [])
  {
    if e.Loop? {
      var racing := DemandGate.AboutToSignal(s.clients);
      LoopAgrees(s.g, PastOf(trace), racing, e.connects, e.err);
      LoopKeepsConfig(s.g, racing, e.connects, e.err);
      AppendReport(s.g.cfg, trace, Report(s.g, DemandGate.Step(s, e).g, e.err));
    } else {
      OthersAgree(s, e, PastOf(trace));
      assert trace + [] == trace;
    }
  }

  /** The gate's loop refines the reconnect loop. */
  lemma {:induction false} GateTraceIsLegal(cfg: Config, started: bool, es: seq<DemandGate.Event>)
    ensures var g := DemandGate.RunAll(DemandGate.Init(cfg, started), es).g;
            g.cfg == cfg && Follows(g, TraceOf(cfg, started, es))
  {
    if es != [] {
      var before, e := es[..|es| - 1], es[|es| - 1];
      GateTraceIsLegal(cfg, started, before);
      StepFollows(DemandGate.RunAll(DemandGate.Init(cfg, started), before), e, TraceOf(cfg, started, before));
    }
  }

  predicate CanStep(g: DemandGate.Gate) {
    match g.stage
    case NotStarted => false
    case Parked => g.token || g.done
    case Paused => g.done
    case Stopped => false
    case _ => true
  }

  /** The loop stands still only before it is started, parked without a token, paused at
      the cap, or stopped; it pauses only at the cap and stops only when cancelled. */
  lemma StandsStillOnlyWaiting(cfg: Config, started: bool, es: seq<DemandGate.Event>, connects: bool, err: bool)
    ensures var g := DemandGate.RunAll(DemandGate.Init(cfg, started), es).g;
            && (CanStep(g) <==> DemandGate.ActLoop(g, false, connects, err) != g)
            && (g.stage == DemandGate.Paused ==> cfg.cap > 0 && PastOf(TraceOf(cfg, started, es)).fails == cfg.cap)
            && (g.stage == DemandGate.Parked ==> cfg.Lazy() && PastOf(TraceOf(cfg, started, es)).lost)
            && (g.stage == DemandGate.Stopped ==> g.done)
  {
    GateTraceIsLegal(cfg, started, es);
  }
}
