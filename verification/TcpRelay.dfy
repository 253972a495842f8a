/**
  The two-way copy of cmd/socks_adapter.go: relayTCP and its two copyHalf goroutines,
  interleaved at every read, write, half-close, report and close. The peers decide how
  a read or a write ends; once the relay has closed a connection they only fail.
 */
module TcpRelay {
  import opened Naturals

  type Byte = nat

  datatype Side = FromClient | FromUpstream

  // How a read ends: more may follow, a clean half-close, or a hard failure.
  datatype End = More | Eof | Failed

  datatype Phase =
    | Reading
    | Writing(chunk: seq<Byte>, end: End)
    | HalfClosing(failed: bool)
    | Reporting(failed: bool)
    | Reported(failed: bool)

  // `source` is all the peer ever sends before its half-close, `pos` what was read.
  datatype Half = Half(source: seq<Byte>, pos: nat, delivered: seq<Byte>, phase: Phase)

  datatype Report = Report(side: Side, failed: bool)

  datatype Main =
    | AwaitFirst
    | FailClient          // closing both after a hard failure
    | FailUpstream
    | Reclaim             // waiting for the other goroutine
    | Shorten             // one clean half-close
    | AwaitSecond
    | CloseClient
    | CloseUpstream
    | Returned(failed: bool)

  // `received` is what the relay has taken from the channel `errc`.
  datatype State = State(client: Half, upstream: Half, clientOpen: bool, upstreamOpen: bool,
                         errc: seq<Report>, received: seq<Report>, main: Main)

  datatype Event =
    | Copy(side: Side, n: nat, end: End, ok: bool)   // one step of one goroutine
    | Relay                                          // one step of relayTCP

  function Init(fromClient: seq<Byte>, fromUpstream: seq<Byte>): State {
    State(Half(fromClient, 0, [], Reading), Half(fromUpstream, 0, [], Reading), true, true, [], [], AwaitFirst)
  }

  function HalfOf(s: State, side: Side): Half {
    if side.FromClient? then s.client else s.upstream
  }

  // io.CopyBuffer, then CloseWrite whatever the error, then the report.
  function ActHalf(h: Half, srcOpen: bool, dstOpen: bool, n: nat, end: End, ok: bool): Half
    requires h.pos <= |h.source|
  {
    match h.phase
    case Reading =>
      if !srcOpen then h.(phase := HalfClosing(true))
      else
        var k := Min(n, |h.source| - h.pos);
        var chunk := h.source[h.pos..h.pos + k];
        var end' := if end.Eof? && h.pos + k < |h.source| then More else end;
        h.(pos := h.pos + k,
           phase := if chunk != [] then Writing(chunk, end')
                    else if end'.More? then Reading else HalfClosing(end'.Failed?))
    case Writing(chunk, end') =>
      var k := if !dstOpen then 0 else if ok then |chunk| else Min(n, |chunk|);
      h.(delivered := h.delivered + chunk[..k],
         phase := if !dstOpen || !ok then HalfClosing(true)
                  else if end'.More? then Reading else HalfClosing(end'.Failed?))
    case HalfClosing(failed) => h.(phase := Reporting(failed))
    case Reporting(failed) => h.(phase := Reported(failed))
    case Reported(_) => h
  }

  function Sent(h: Half, side: Side): seq<Report> {
    if h.phase.Reporting? then [Report(side, h.phase.failed)] else []
  }

  function ActMain(s: State): State
    requires s.main.CloseUpstream? ==> |s.received| == 2
  {
    match s.main
    case AwaitFirst =>
      if s.errc == [] then s
      else s.(errc := s.errc[1..], received := s.received + [s.errc[0]],
              main := if s.errc[0].failed then FailClient else Shorten)
    case FailClient => s.(clientOpen := false, main := FailUpstream)
    case FailUpstream => s.(upstreamOpen := false, main := Reclaim)
    case Reclaim =>
      if s.errc == [] then s
      else s.(errc := s.errc[1..], received := s.received + [s.errc[0]], main := Returned(true))
    case Shorten => s.(main := AwaitSecond)
    case AwaitSecond =>
      if s.errc == [] then s
      else s.(errc := s.errc[1..], received := s.received + [s.errc[0]], main := CloseClient)
    case CloseClient => s.(clientOpen := false, main := CloseUpstream)
    case CloseUpstream => s.(upstreamOpen := false, main := Returned(s.received[1].failed))
    case Returned(_) => s
  }

  function Step(s: State, e: Event): State
    requires Inv(s)
  {
    match e
    case Copy(FromClient, n, end, ok) =>
      s.(client := ActHalf(s.client, s.clientOpen, s.upstreamOpen, n, end, ok),
         errc := s.errc + Sent(s.client, FromClient))
    case Copy(FromUpstream, n, end, ok) =>
      s.(upstream := ActHalf(s.upstream, s.upstreamOpen, s.clientOpen, n, end, ok),
         errc := s.errc + Sent(s.upstream, FromUpstream))
    case Relay => ActMain(s)
  }

  function RunAll(s: State, es: seq<Event>): (r: State)
    requires Inv(s)
    ensures Inv(r)
  {
    if es == [] then s
    else
      var before := RunAll(s, es[..|es| - 1]);
      StepKeepsInv(before, es[|es| - 1]);
      Step(before, es[|es| - 1])
  }

  // ---- The invariant.

  predicate HalfOk(h: Half) {
    && h.pos <= |h.source|
    && match h.phase
       case Reading => h.delivered == h.source[..h.pos]
       case Writing(chunk, end) =>
         h.delivered + chunk == h.source[..h.pos] && (end.Eof? ==> h.pos == |h.source|)
       case HalfClosing(failed) => EndOk(h, failed)
       case Reporting(failed) => EndOk(h, failed)
       case Reported(failed) => EndOk(h, failed)
  }

  predicate EndOk(h: Half, failed: bool) {
    h.delivered <= h.source && (!failed ==> h.delivered == h.source)
  }

  // The channel and what was taken from it hold one report of each finished half.
  predicate ReportsOk(h: Half, side: Side, all: seq<Report>) {
    (forall r | r in all && r.side == side :: h.phase == Reported(r.failed))
    && (h.phase.Reported? ==> Report(side, h.phase.failed) in all)
  }

  predicate Distinct(all: seq<Report>) {
    |all| <= 2 && (|all| == 2 ==> all[0].side != all[1].side)
  }

  predicate MainOk(s: State) {
    match s.main
    case AwaitFirst => s.received == [] && s.clientOpen && s.upstreamOpen
    case FailClient => |s.received| == 1 && s.received[0].failed && s.clientOpen && s.upstreamOpen
    case FailUpstream => |s.received| == 1 && s.received[0].failed && !s.clientOpen && s.upstreamOpen
    case Reclaim => |s.received| == 1 && s.received[0].failed && !s.clientOpen && !s.upstreamOpen
    case Shorten => |s.received| == 1 && !s.received[0].failed && s.clientOpen && s.upstreamOpen
    case AwaitSecond => |s.received| == 1 && !s.received[0].failed && s.clientOpen && s.upstreamOpen
    case CloseClient => |s.received| == 2 && !s.received[0].failed && s.clientOpen && s.upstreamOpen
    case CloseUpstream => |s.received| == 2 && !s.received[0].failed && !s.clientOpen && s.upstreamOpen
    case Returned(failed) =>
      && |s.received| == 2 && !s.clientOpen && !s.upstreamOpen
      && failed == (s.received[0].failed || s.received[1].failed)
  }

  predicate Books(client: Half, upstream: Half, all: seq<Report>) {
    && HalfOk(client) && HalfOk(upstream) && Distinct(all)
    && ReportsOk(client, FromClient, all) && ReportsOk(upstream, FromUpstream, all)
  }

  predicate Inv(s: State) {
    Books(s.client, s.upstream, s.received + s.errc) && MainOk(s)
  }

  predicate PhaseFollows(p: Phase, p': Phase) {
    && (p'.Reported? <==> p.Reporting? || p.Reported?)
    && (p'.Reported? ==> p'.failed == p.failed)
  }

  lemma ActHalfKeepsOk(h: Half, srcOpen: bool, dstOpen: bool, n: nat, end: End, ok: bool)
    requires HalfOk(h)
    ensures var h' := ActHalf(h, srcOpen, dstOpen, n, end, ok);
            HalfOk(h') && h'.source == h.source && PhaseFollows(h.phase, h'.phase)
  {
    var h' := ActHalf(h, srcOpen, dstOpen, n, end, ok);
    if h.phase.Reading? {
      assert h.source[..h.pos] + h.source[h.pos..h'.pos] == h.source[..h'.pos];
      assert h'.pos == |h.source| ==> h.source[..h'.pos] == h.source;
    } else if h.phase.Writing? {
      assert h.phase.chunk[..|h.phase.chunk|] == h.phase.chunk;
      assert h'.delivered <= h.delivered + h.phase.chunk;
      assert h.pos == |h.source| ==> h.source[..h.pos] == h.source;
    }
  }

  // A half's own report joins the channel; the other half's reports are untouched.
  lemma SentKeepsReports(h: Half, h': Half, side: Side, other: Half, all: seq<Report>, otherSide: Side)
    requires side != otherSide && Distinct(all) && ReportsOk(h, side, all) && ReportsOk(other, otherSide, all)
    requires PhaseFollows(h.phase, h'.phase)
    ensures var all' := all + Sent(h, side);
            Distinct(all') && ReportsOk(h', side, all') && ReportsOk(other, otherSide, all')
  {
    if h.phase.Reporting? {
      // Two reports of different sides would include this one.
      assert forall i | 0 <= i < |all| :: all[i] in all && all[i].side != side;
    }
  }

  // A receive moves the first report of the channel to what was received.
  lemma ReceiveKeepsInv(s: State)
    requires Inv(s) && (s.main.AwaitFirst? || s.main.Reclaim? || s.main.AwaitSecond?)
    ensures Inv(ActMain(s)) && ActMain(s).client == s.client && ActMain(s).upstream == s.upstream
  {
    var s' := ActMain(s);
    if s.errc != [] {
      assert s'.received == s.received + [s.errc[0]];
      assert s'.received + s'.errc == s.received + s.errc;
    }
  }

  lemma MainKeepsInv(s: State)
    requires Inv(s)
    ensures Inv(ActMain(s)) && ActMain(s).client == s.client && ActMain(s).upstream == s.upstream
  {
    if s.main.AwaitFirst? || s.main.Reclaim? || s.main.AwaitSecond? {
      ReceiveKeepsInv(s);
    }
  }

  lemma ClientCopyKeepsInv(s: State, n: nat, end: End, ok: bool)
    requires Inv(s)
    ensures var s' := Step(s, Copy(FromClient, n, end, ok)); Inv(s') && s'.client.source == s.client.source
  {
    var all, s' := s.received + s.errc, Step(s, Copy(FromClient, n, end, ok));
    ActHalfKeepsOk(s.client, s.clientOpen, s.upstreamOpen, n, end, ok);
    SentKeepsReports(s.client, s'.client, FromClient, s.upstream, all, FromUpstream);
    assert s'.received + s'.errc == all + Sent(s.client, FromClient);
  }

  lemma UpstreamCopyKeepsInv(s: State, n: nat, end: End, ok: bool)
    requires Inv(s)
    ensures var s' := Step(s, Copy(FromUpstream, n, end, ok)); Inv(s') && s'.upstream.source == s.upstream.source
  {
    var all, s' := s.received + s.errc, Step(s, Copy(FromUpstream, n, end, ok));
    ActHalfKeepsOk(s.upstream, s.upstreamOpen, s.clientOpen, n, end, ok);
    SentKeepsReports(s.upstream, s'.upstream, FromUpstream, s.client, all, FromClient);
    assert s'.received + s'.errc == all + Sent(s.upstream, FromUpstream);
  }

  lemma StepKeepsInv(s: State, e: Event)
    requires Inv(s)
    ensures Inv(Step(s, e))
    ensures Step(s, e).client.source == s.client.source && Step(s, e).upstream.source == s.upstream.source
  {
    match e
    case Copy(FromClient, n, end, ok) => ClientCopyKeepsInv(s, n, end, ok);
    case Copy(FromUpstream, n, end, ok) => UpstreamCopyKeepsInv(s, n, end, ok);
    case Relay => MainKeepsInv(s);
  }

  // ---- What every run promises.

  function Reach(a: seq<Byte>, b: seq<Byte>, es: seq<Event>): (s: State)
    ensures Inv(s)
  {
    RunAll(Init(a, b), es)
  }

  lemma {:induction false} SourcesFixed(a: seq<Byte>, b: seq<Byte>, es: seq<Event>)
    ensures Reach(a, b, es).client.source == a && Reach(a, b, es).upstream.source == b
  {
    if es != [] {
      SourcesFixed(a, b, es[..|es| - 1]);
      StepKeepsInv(Reach(a, b, es[..|es| - 1]), es[|es| - 1]);
    }
  }

  lemma HalfDelivers(h: Half)
    requires HalfOk(h)
    ensures h.delivered <= h.source
    ensures h.phase.HalfClosing? && !h.phase.failed ==> h.delivered == h.source
  {
    if h.phase.Writing? {
      assert h.delivered <= h.delivered + h.phase.chunk;
    }
  }

  /** Each direction has delivered a prefix of its peer's bytes, and half-closes after a
      clean end only when it has delivered them all. */
  lemma DeliversAPrefix(a: seq<Byte>, b: seq<Byte>, es: seq<Event>)
    ensures var s := Reach(a, b, es);
            && s.client.delivered <= a && s.upstream.delivered <= b
            && (s.client.phase.HalfClosing? && !s.client.phase.failed ==> s.client.delivered == a)
            && (s.upstream.phase.HalfClosing? && !s.upstream.phase.failed ==> s.upstream.delivered == b)
  {
    SourcesFixed(a, b, es);
    HalfDelivers(Reach(a, b, es).client);
    HalfDelivers(Reach(a, b, es).upstream);
  }

  /** relayTCP returns only after both directions have reported and both connections are
      closed, with nothing left in the channel; it returns nil exactly when both
      directions ended cleanly, and then both delivered everything. */
  lemma ReturnsWhenFinished(a: seq<Byte>, b: seq<Byte>, es: seq<Event>)
    requires Reach(a, b, es).main.Returned?
    ensures var s := Reach(a, b, es);
            && s.client.phase.Reported? && s.upstream.phase.Reported? && s.errc == []
            && !s.clientOpen && !s.upstreamOpen
            && (s.main.failed <==> s.client.phase.failed || s.upstream.phase.failed)
            && (!s.main.failed ==> s.client.delivered == a && s.upstream.delivered == b)
  {
    SourcesFixed(a, b, es);
    var s := Reach(a, b, es);
    var all := s.received + s.errc;
    assert all[0] in all && all[1] in all;
  }

  /** As long as no direction has failed, neither connection is closed before both
      directions have ended: a clean half-close leaves the survivor running. */
  lemma CleanHalfCloseKeepsSurvivor(a: seq<Byte>, b: seq<Byte>, es: seq<Event>)
    requires var s := Reach(a, b, es); !s.clientOpen || !s.upstreamOpen
    ensures var s := Reach(a, b, es);
            || (s.client.phase.Reported? && s.upstream.phase.Reported?)
            || s.client.phase == Reported(true) || s.upstream.phase == Reported(true)
  {
    var s := Reach(a, b, es);
    var all := s.received + s.errc;
    assert s.received[0] == all[0] && all[0] in all;
    if |s.received| == 2 {
      assert s.received[1] == all[1] && all[1] in all;
    }
  }

  // ---- Why a direction ends.

  // A copy step of this half fails: the read ends hard, the write fails, or the relay has
  // closed the connection it needs.
  predicate StepFails(h: Half, srcOpen: bool, dstOpen: bool, end: End, ok: bool) {
    match h.phase
    case Reading => !srcOpen || end.Failed?
    case Writing(_, _) => !dstOpen || !ok
    case _ => false
  }

  predicate EventFails(s: State, e: Event, side: Side) {
    e.Copy? && e.side == side
    && match side
       case FromClient => StepFails(s.client, s.clientOpen, s.upstreamOpen, e.end, e.ok)
       case FromUpstream => StepFails(s.upstream, s.upstreamOpen, s.clientOpen, e.end, e.ok)
  }

  predicate FailsAt(a: seq<Byte>, b: seq<Byte>, es: seq<Event>, i: nat, side: Side)
    requires i < |es|
  {
    EventFails(Reach(a, b, es[..i]), es[i], side)
  }

  ghost predicate HasFailed(a: seq<Byte>, b: seq<Byte>, es: seq<Event>, side: Side) {
    exists i: nat :: i < |es| && FailsAt(a, b, es, i, side)
  }

  // What a half knows of whether a step of it has failed.
  predicate KnowsFailure(h: Half, hasFailed: bool) {
    match h.phase
    case Reading => !hasFailed
    case Writing(_, end) => hasFailed == end.Failed?
    case HalfClosing(failed) => hasFailed == failed
    case Reporting(failed) => hasFailed == failed
    case Reported(failed) => hasFailed == failed
  }

  lemma ActKnowsFailure(h: Half, srcOpen: bool, dstOpen: bool, n: nat, end: End, ok: bool, hasFailed: bool)
    requires h.pos <= |h.source| && KnowsFailure(h, hasFailed)
    ensures KnowsFailure(ActHalf(h, srcOpen, dstOpen, n, end, ok),
                         hasFailed || StepFails(h, srcOpen, dstOpen, end, ok))
  {
  }

  lemma FailedGrows(a: seq<Byte>, b: seq<Byte>, es: seq<Event>, e: Event, side: Side)
    ensures HasFailed(a, b, es + [e], side) <==> HasFailed(a, b, es, side) || EventFails(Reach(a, b, es), e, side)
  {
    var all := es + [e];
    assert all[..|es|] == es;
    forall i: nat | i < |es|
      ensures FailsAt(a, b, all, i, side) <==> FailsAt(a, b, es, i, side)
    {
      assert all[..i] == es[..i];
    }
    if EventFails(Reach(a, b, es), e, side) {
      assert FailsAt(a, b, all, |es|, side);
    }
    if HasFailed(a, b, es, side) {
      var i: nat :| i < |es| && FailsAt(a, b, es, i, side);
      assert FailsAt(a, b, all, i, side);
    }
  }

  lemma ReachStep(a: seq<Byte>, b: seq<Byte>, es: seq<Event>, e: Event)
    ensures Reach(a, b, es + [e]) == Step(Reach(a, b, es), e)
  {
    assert (es + [e])[..|es|] == es;
  }

  lemma {:induction false} FailureIsKnown(a: seq<Byte>, b: seq<Byte>, es: seq<Event>)
    ensures KnowsFailure(Reach(a, b, es).client, HasFailed(a, b, es, FromClient))
    ensures KnowsFailure(Reach(a, b, es).upstream, HasFailed(a, b, es, FromUpstream))
  {
    if es != [] {
      var before, e := es[..|es| - 1], es[|es| - 1];
      assert es == before + [e];
      FailureIsKnown(a, b, before);
      ReachStep(a, b, before, e);
      FailedGrows(a, b, before, e, FromClient);
      FailedGrows(a, b, before, e, FromUpstream);
      StepKnowsFailure(Reach(a, b, before), e, HasFailed(a, b, before, FromClient),
                       HasFailed(a, b, before, FromUpstream));
    }
  }

  lemma StepKnowsFailure(s: State, e: Event, c: bool, u: bool)
    requires Inv(s) && KnowsFailure(s.client, c) && KnowsFailure(s.upstream, u)
    ensures KnowsFailure(Step(s, e).client, c || EventFails(s, e, FromClient))
    ensures KnowsFailure(Step(s, e).upstream, u || EventFails(s, e, FromUpstream))
  {
    match e
    case Copy(FromClient, n, end, ok) => ActKnowsFailure(s.client, s.clientOpen, s.upstreamOpen, n, end, ok, c);
    case Copy(FromUpstream, n, end, ok) => ActKnowsFailure(s.upstream, s.upstreamOpen, s.clientOpen, n, end, ok, u);
    case Relay =>
  }

  /** A direction ends as failed if and only if one of its reads or writes failed, or met a
      connection the relay had closed: a clean end of file is never reported as a failure,
      and a failure never as a clean end. */
  lemma FailedIff(a: seq<Byte>, b: seq<Byte>, es: seq<Event>, side: Side)
    requires var s := Reach(a, b, es);
             var p := HalfOf(s, side).phase;
             p.HalfClosing? || p.Reporting? || p.Reported?
    ensures var s := Reach(a, b, es);
            HalfOf(s, side).phase.failed <==> HasFailed(a, b, es, side)
  {
    FailureIsKnown(a, b, es);
  }

  // ---- A run in which neither peer fails.

  predicate Peaceful(es: seq<Event>) {
    forall e | e in es && e.Copy? :: !e.end.Failed? && e.ok
  }

  predicate NoFailure(h: Half) {
    match h.phase
    case Reading => true
    case Writing(_, end) => !end.Failed?
    case HalfClosing(failed) => !failed
    case Reporting(failed) => !failed
    case Reported(failed) => !failed
  }

  predicate AllPeaceful(s: State) {
    && NoFailure(s.client) && NoFailure(s.upstream)
    && (forall r | r in s.received + s.errc :: !r.failed)
    && (!s.clientOpen || !s.upstreamOpen ==> s.client.phase.Reported? && s.upstream.phase.Reported?)
  }

  lemma BothReported(s: State)
    requires Inv(s) && |s.received| == 2
    ensures s.client.phase.Reported? && s.upstream.phase.Reported? && s.errc == []
  {
    var all := s.received + s.errc;
    assert all[0] in all && all[1] in all;
  }

  lemma MainStaysPeaceful(s: State)
    requires Inv(s) && AllPeaceful(s)
    ensures AllPeaceful(ActMain(s))
  {
    var s' := ActMain(s);
    assert forall r | r in s'.received + s'.errc :: r in s.received + s.errc;
    assert s.received != [] ==> s.received[0] in s.received + s.errc;
    if |s.received| == 2 {
      BothReported(s);
    }
  }

  lemma CopyStaysPeaceful(s: State, e: Event)
    requires Inv(s) && AllPeaceful(s) && e.Copy? && !e.end.Failed? && e.ok
    ensures AllPeaceful(Step(s, e))
  {
    var s' := Step(s, e);
    assert s'.received == s.received;
    assert s'.errc
        == s.errc + if e.side.FromClient? then Sent(s.client, FromClient) else Sent(s.upstream, FromUpstream);
  }

  lemma {:induction false} StaysPeaceful(a: seq<Byte>, b: seq<Byte>, es: seq<Event>)
    requires Peaceful(es)
    ensures AllPeaceful(Reach(a, b, es))
  {
    if es != [] {
      var before, e := es[..|es| - 1], es[|es| - 1];
      assert e in es && forall x | x in before :: x in es;
      StaysPeaceful(a, b, before);
      if e.Copy? {
        CopyStaysPeaceful(Reach(a, b, before), e);
      } else {
        MainStaysPeaceful(Reach(a, b, before));
      }
    }
  }

  /** When neither peer fails, no connection is closed before both directions have ended,
      each ends cleanly with everything delivered, and the relay returns nil. */
  lemma PeacefulRunIsClean(a: seq<Byte>, b: seq<Byte>, es: seq<Event>)
    requires Peaceful(es)
    ensures var s := Reach(a, b, es);
            && (!s.clientOpen || !s.upstreamOpen ==> s.client.phase.Reported? && s.upstream.phase.Reported?)
            && (s.client.phase.Reported? ==> !s.client.phase.failed && s.client.delivered == a)
            && (s.upstream.phase.Reported? ==> !s.upstream.phase.failed && s.upstream.delivered == b)
            && (s.main.Returned? ==> !s.main.failed && s.client.delivered == a && s.upstream.delivered == b)
  {
    StaysPeaceful(a, b, es);
    SourcesFixed(a, b, es);
    if Reach(a, b, es).main.Returned? {
      ReturnsWhenFinished(a, b, es);
    }
  }

  lemma Then(a: seq<Byte>, b: seq<Byte>, es: seq<Event>, e: Event) returns (longer: seq<Event>)
    requires Peaceful(es) && (e.Copy? ==> !e.end.Failed? && e.ok)
    ensures longer == es + [e] && Peaceful(longer) && Reach(a, b, longer) == Step(Reach(a, b, es), e)
  {
    longer := es + [e];
    ReachStep(a, b, es, e);
  }

  // Nothing has changed but this half and, perhaps, the channel.
  predicate OnlyHalf(s: State, s': State, side: Side, errc: seq<Report>) {
    s' == if side.FromClient? then s.(client := s'.client, errc := errc) else s.(upstream := s'.upstream, errc := errc)
  }

  lemma CopyStep(a: seq<Byte>, b: seq<Byte>, es: seq<Event>, side: Side, n: nat, end: End) returns (more: seq<Event>)
    requires Peaceful(es) && Reach(a, b, es).clientOpen && Reach(a, b, es).upstreamOpen && !end.Failed?
    ensures var s, s' := Reach(a, b, es), Reach(a, b, more);
            && Peaceful(more) && OnlyHalf(s, s', side, s.errc + Sent(HalfOf(s, side), side))
            && HalfOf(s', side) == ActHalf(HalfOf(s, side), true, true, n, end, true)
  {
    more := Then(a, b, es, Copy(side, n, end, true));
  }

  // One direction reads all there is, meets the end of file, and has written it.
  lemma CopyEnds(a: seq<Byte>, b: seq<Byte>, es: seq<Event>, side: Side) returns (more: seq<Event>)
    requires Peaceful(es) && Reach(a, b, es).clientOpen && Reach(a, b, es).upstreamOpen
    requires HalfOf(Reach(a, b, es), side).phase == Reading
    ensures var s, s' := Reach(a, b, es), Reach(a, b, more);
            && Peaceful(more) && OnlyHalf(s, s', side, s.errc) && HalfOf(s', side).phase == HalfClosing(false)
  {
    var h := HalfOf(Reach(a, b, es), side);
    more := CopyStep(a, b, es, side, |h.source|, Eof);
    assert h.source[h.pos..h.pos + (|h.source| - h.pos)] == h.source[h.pos..];
    if h.pos < |h.source| {
      more := CopyStep(a, b, more, side, 0, Eof);
    }
  }

  // Then it half-closes and reports.
  lemma CopyReports(a: seq<Byte>, b: seq<Byte>, es: seq<Event>, side: Side) returns (more: seq<Event>)
    requires Peaceful(es) && Reach(a, b, es).clientOpen && Reach(a, b, es).upstreamOpen
    requires HalfOf(Reach(a, b, es), side).phase == HalfClosing(false)
    ensures var s, s' := Reach(a, b, es), Reach(a, b, more);
            && Peaceful(more) && OnlyHalf(s, s', side, s.errc + [Report(side, false)])
            && HalfOf(s', side).phase == Reported(false)
  {
    more := CopyStep(a, b, es, side, 0, More);
    assert HalfOf(Reach(a, b, more), side).phase == Reporting(false);
    more := CopyStep(a, b, more, side, 0, More);
  }

  lemma CopyRuns(a: seq<Byte>, b: seq<Byte>, es: seq<Event>, side: Side) returns (more: seq<Event>)
    requires Peaceful(es) && Reach(a, b, es).clientOpen && Reach(a, b, es).upstreamOpen
    requires HalfOf(Reach(a, b, es), side).phase == Reading
    ensures var s, s' := Reach(a, b, es), Reach(a, b, more);
            && Peaceful(more) && OnlyHalf(s, s', side, s.errc + [Report(side, false)])
            && HalfOf(s', side).phase == Reported(false)
  {
    var ended := CopyEnds(a, b, es, side);
    more := CopyReports(a, b, ended, side);
  }

  /** And such a run exists for whatever the peers have to send: both directions end cleanly
      and the relay returns nil. */
  lemma RelayCanFinish(a: seq<Byte>, b: seq<Byte>) returns (es: seq<Event>)
    ensures Peaceful(es) && Reach(a, b, es).main == Returned(false)
  {
    es := [];
    es := CopyRuns(a, b, es, FromClient);
    es := CopyRuns(a, b, es, FromUpstream);
    es := Then(a, b, es, Relay);
    es := Then(a, b, es, Relay);
    es := Then(a, b, es, Relay);
    es := Then(a, b, es, Relay);
    es := Then(a, b, es, Relay);
  }

  function Rank(p: Phase): nat {
    match p
    case Reading => 3
    case Writing(_, _) => 3
    case HalfClosing(_) => 2
    case Reporting(_) => 1
    case Reported(_) => 0
  }

  // The steps left once both connections are closed after a hard failure.
  function StepsLeft(s: State): nat {
    (if s.main.Reclaim? then 1 else 0) + Rank(s.client.phase) + Rank(s.upstream.phase)
  }

  lemma FailingStepDrains(s: State, e: Event)
    requires Inv(s) && s.main.Reclaim? && Step(s, e) != s
    ensures StepsLeft(Step(s, e)) < StepsLeft(s)
    ensures Step(s, e).main == Reclaim || Step(s, e).main == Returned(true)
  {
    assert s.errc == [] ==> Step(s, Relay) == s;
  }

  lemma UnfinishedCopyCanStep(s: State, side: Side, n: nat, end: End, ok: bool)
    requires Inv(s) && s.main.Reclaim?
    requires var h := HalfOf(s, side); !h.phase.Reported?
    ensures Step(s, Copy(side, n, end, ok)) != s
  {
  }

  lemma SomeoneCanStep(s: State)
    requires Inv(s) && s.main.Reclaim? && s.client.phase.Reported? && s.upstream.phase.Reported?
    ensures s.errc != []
  {
    var all := s.received + s.errc;
    assert Report(FromClient, s.client.phase.failed) in all;
    assert Report(FromUpstream, s.upstream.phase.failed) in all;
  }

  /** After a hard failure the relay closes both connections without waiting for anything,
      whatever the copies do meanwhile. */
  lemma FailureClosesBoth(a: seq<Byte>, b: seq<Byte>, es: seq<Event>, e: Event)
    requires var m := Reach(a, b, es).main; m.FailClient? || m.FailUpstream?
    ensures var s := Reach(a, b, es);
            && Step(s, Relay).main == (if s.main.FailClient? then FailUpstream else Reclaim)
            && (Step(s, Relay).main.Reclaim? ==> !Step(s, Relay).clientOpen && !Step(s, Relay).upstreamOpen)
            && (e.Copy? ==> Step(s, e).main == s.main)
  {
  }

  /** From then on it cannot hang: every step that any goroutine takes, whatever the peers
      do, brings the return nearer; every unfinished copy can take one, however its read or
      write ends, and when both have finished the relay itself returns. */
  lemma FailureDrains(a: seq<Byte>, b: seq<Byte>, es: seq<Event>, e: Event)
    requires Reach(a, b, es).main.Reclaim?
    ensures var s := Reach(a, b, es);
            Step(s, e) != s ==>
              StepsLeft(Step(s, e)) < StepsLeft(s) && (Step(s, e).main == Reclaim || Step(s, e).main == Returned(true))
    ensures var s := Reach(a, b, es);
            e.Copy? && !HalfOf(s, e.side).phase.Reported? ==> Step(s, e) != s
    ensures var s := Reach(a, b, es);
            s.client.phase.Reported? && s.upstream.phase.Reported? ==> Step(s, Relay).main == Returned(true)
  {
    var s := Reach(a, b, es);
    if Step(s, e) != s {
      FailingStepDrains(s, e);
    }
    if e.Copy? && !HalfOf(s, e.side).phase.Reported? {
      UnfinishedCopyCanStep(s, e.side, e.n, e.end, e.ok);
    }
    if s.client.phase.Reported? && s.upstream.phase.Reported? {
      SomeoneCanStep(s);
    }
  }
}
