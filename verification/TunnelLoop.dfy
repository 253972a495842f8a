/**
  The reconnect loop of api/tunnel.go (MaintainTunnel with
  handleConnectionWithForwarding): its counter, its cap, its callbacks and its
  demand gate, told as a trace of events.
 */
module TunnelLoop {

  // `cap` is MaxReconnectAttempts (no cap unless positive); `always` is
  // AlwaysReconnect; `gate` says whether WaitForReconnectDemand is set.
  datatype Config = Config(cap: int, always: bool, gate: bool) {
    predicate Lazy() {
      !always && gate
    }
  }

  datatype Event =
    | ConnectFailed
    | Up                   // OnConnected
    | Down(err: bool)      // OnDisconnected
    | Demand               // WaitForReconnectDemand returned nil
    | Delay(attempt: nat)  // NextDelay(attempt), then a sleep
    | Reset
    | Pause

  // What the world does during one turn of the loop: whether ctx is done at the
  // top, how the connection goes, whether ctx is done after it, and whether the
  // wait or sleep ends by itself rather than by ctx.
  datatype Round = Round(doneAtTop: bool, connects: bool, err: bool, doneAfter: bool, proceeds: bool)

  datatype Next = WaitForDemand | GiveUp | SleepThenRetry | RetryNow

  function Decide(cfg: Config, attempt: nat, err: bool): Next {
    if !err then RetryNow
    else if attempt == 0 && !cfg.always && cfg.gate then WaitForDemand
    else if cfg.cap > 0 && attempt >= cfg.cap then GiveUp
    else SleepThenRetry
  }

  // ---- What a trace must look like, event by event. A past is what matters of a
  // trace so far: the failed connects since the last success; whether a connection is open;
  // whether the last thing to happen to one was a failed connect, a loss, or a clean end;
  // how many demand waits, delays and resets there have been since; and how the connects
  // went.

  datatype Past = Past(fails: nat, open: bool, failed: bool, lost: bool, ended: bool,
                       waits: nat, delays: nat, resets: nat, outcomes: seq<bool>)

  predicate IsConnect(e: Event) {
    e.ConnectFailed? || e.Up?
  }

  function Extend(p: Past, e: Event): Past {
    match e
    case ConnectFailed => Past(p.fails + 1, p.open, true, false, false, 0, 0, 0, p.outcomes + [false])
    case Up => Past(0, true, false, false, false, 0, 0, 0, p.outcomes + [true])
    case Down(err) => Past(p.fails, false, false, err, !err, 0, 0, 0, p.outcomes)
    case Demand => p.(waits := p.waits + 1)
    case Delay(_) => p.(delays := p.delays + 1)
    case Reset => p.(resets := p.resets + 1)
    case Pause => p
  }

  // The past of the first `n` events.
  function PastAt(trace: seq<Event>, n: nat): Past
    requires n <= |trace|
  {
    if n == 0 then Past(0, false, false, false, false, 0, 0, 0, []) else Extend(PastAt(trace, n - 1), trace[n - 1])
  }

  function PastOf(trace: seq<Event>): Past {
    PastAt(trace, |trace|)
  }

  // A failed connect, and a loss that does not wait for demand, are followed by a delay; a
  // clean end and a demand by a reset of the strategy.
  predicate OwesDelay(cfg: Config, p: Past) {
    p.failed || (p.lost && !cfg.Lazy())
  }

  predicate OwesReset(p: Past) {
    p.ended || p.waits > 0
  }

  predicate UnderCap(cfg: Config, p: Past) {
    cfg.cap > 0 ==> p.fails < cfg.cap
  }

  predicate Allowed(cfg: Config, p: Past, e: Event) {
    match e
    case Down(_) => p.open
    case Demand => cfg.Lazy() && p.lost && p.waits == 0
    case Delay(n) => !p.open && n == p.fails && OwesDelay(cfg, p) && p.delays == 0 && UnderCap(cfg, p)
    case Reset => !p.open && OwesReset(p) && p.resets == 0
    case Pause => !p.open && cfg.cap > 0 && p.fails == cfg.cap
    case _ =>
      && !p.open && UnderCap(cfg, p)
      && (cfg.Lazy() && p.lost ==> p.waits == 1)
      && (OwesDelay(cfg, p) ==> p.delays == 1)
      && (OwesReset(p) ==> p.resets == 1)
  }

  predicate AllowedAt(cfg: Config, trace: seq<Event>, i: nat)
    requires i < |trace|
  {
    Allowed(cfg, PastAt(trace, i), trace[i])
  }

  ghost predicate Legal(cfg: Config, trace: seq<Event>) {
    forall i | 0 <= i < |trace| :: AllowedAt(cfg, trace, i)
  }

  lemma {:induction false} PastOfPrefix(trace: seq<Event>, e: Event, n: nat)
    requires n <= |trace|
    ensures PastAt(trace + [e], n) == PastAt(trace, n)
  {
    if n > 0 {
      PastOfPrefix(trace, e, n - 1);
    }
  }

  method Emit(ghost cfg: Config, trace: seq<Event>, e: Event) returns (t: seq<Event>)
    requires Legal(cfg, trace) && Allowed(cfg, PastOf(trace), e)
    ensures t == trace + [e] && Legal(cfg, t) && PastOf(t) == Extend(PastOf(trace), e)
  {
    t := trace + [e];
    forall i | 0 <= i < |t|
      ensures AllowedAt(cfg, t, i)
    {
      PastOfPrefix(trace, e, i);
      assert i < |trace| ==> AllowedAt(cfg, trace, i);
    }
    PastOfPrefix(trace, e, |trace|);
  }

  /** One connection: the next attempt number and whether it ended in an error. */
  method HandleConnection(ghost cfg: Config, attempt: nat, r: Round, trace: seq<Event>)
    returns (next: nat, err: bool, t: seq<Event>)
    requires Legal(cfg, trace) && attempt == PastOf(trace).fails
    requires Allowed(cfg, PastOf(trace), Up)
    ensures Legal(cfg, t) && next == PastOf(t).fails
    ensures err == (r.connects ==> r.err)
    ensures PastOf(t) == if r.connects then Extend(Extend(PastOf(trace), Up), Down(r.err))
                         else Extend(PastOf(trace), ConnectFailed)
  {
    if !r.connects {
      t := Emit(cfg, trace, ConnectFailed);
      return attempt + 1, true, t;
    }
    t := Emit(cfg, trace, Up);
    t := Emit(cfg, t, Down(r.err));
    return 0, r.err, t;
  }

  function Wanted(rounds: seq<Round>): seq<bool> {
    seq(|rounds|, i requires 0 <= i < |rounds| => rounds[i].connects)
  }

  lemma WantedNext(rounds: seq<Round>, k: nat)
    requires k < |rounds|
    ensures Wanted(rounds)[..k + 1] == Wanted(rounds)[..k] + [rounds[k].connects]
    ensures rounds[k] in rounds
  {
  }

  predicate Undisturbed(r: Round) {
    !r.doneAtTop && !r.doneAfter && r.proceeds
  }

  // Turns that end the loop: ctx is done after the connection or during a wait or sleep.
  predicate Interrupted(r: Round) {
    r.doneAfter || (!r.proceeds && (!r.connects || r.err))
  }

  predicate GoesOn(r: Round) {
    !r.doneAtTop && !Interrupted(r)
  }

  /** The loop, for as many turns as the caller watches. Every trace is legal, every
      established connection has been reported lost, the connects go as the world
      has it, and ctx or the cap, and nothing else, ends the loop early. */
  method MaintainTunnel(cfg: Config, rounds: seq<Round>) returns (trace: seq<Event>)
    ensures Legal(cfg, trace)
    ensures !PastOf(trace).open
    ensures PastOf(trace).outcomes <= Wanted(rounds)
    ensures (forall r | r in rounds :: Undisturbed(r)) && PastOf(trace).outcomes != Wanted(rounds)
            ==> cfg.cap > 0 && PastOf(trace).fails == cfg.cap
    ensures forall k | 0 <= k < |PastOf(trace).outcomes| - 1 :: GoesOn(rounds[k])
    ensures PastOf(trace).outcomes != [] ==> !rounds[|PastOf(trace).outcomes| - 1].doneAtTop
  {
    var attempt := 0;
    trace := [];
    for k := 0 to |rounds|
      invariant Legal(cfg, trace)
      invariant attempt == PastOf(trace).fails && !PastOf(trace).open
      invariant PastOf(trace).outcomes == Wanted(rounds)[..k]
      invariant Allowed(cfg, PastOf(trace), Up)
      invariant forall j | 0 <= j < k :: GoesOn(rounds[j])
    {
      var r := rounds[k];
      WantedNext(rounds, k);
      if r.doneAtTop {
        return;
      }
      var err;
      attempt, err, trace := HandleConnection(cfg, attempt, r, trace);
      if r.doneAfter {
        return;
      }
      match Decide(cfg, attempt, err) {
        case WaitForDemand =>
          if !r.proceeds {
            return;
          }
          trace := Emit(cfg, trace, Demand);
          trace := Emit(cfg, trace, Reset);
        case GiveUp =>
          trace := Emit(cfg, trace, Pause);
          return;
        case SleepThenRetry =>
          trace := Emit(cfg, trace, Delay(attempt));
          if !r.proceeds {
            return;
          }
        case RetryNow =>
          trace := Emit(cfg, trace, Reset);
      }
    }
  }

  // ---- What a legal trace promises as a whole.

  function Count(e: Event, trace: seq<Event>, i: nat, j: nat): nat
    requires i <= j <= |trace|
  {
    if i == j then 0 else Count(e, trace, i, j - 1) + if trace[j - 1] == e then 1 else 0
  }

  lemma {:induction false} FailsCountBack(trace: seq<Event>, i: nat, j: nat)
    requires i <= j <= |trace|
    requires forall k | i <= k < j :: trace[k] != Up
    ensures PastAt(trace, j).fails == PastAt(trace, i).fails + Count(ConnectFailed, trace, i, j)
  {
    if i < j {
      FailsCountBack(trace, i, j - 1);
    }
  }

  /** The number a delay is computed from is the current run of failed connects. */
  lemma AttemptCountsTheRun(cfg: Config, trace: seq<Event>, i: nat, j: nat)
    requires Legal(cfg, trace) && i <= j < |trace| && trace[j].Delay?
    requires (i == 0 || trace[i - 1] == Up) && forall k | i <= k < j :: trace[k] != Up
    ensures trace[j].attempt == Count(ConnectFailed, trace, i, j)
  {
    assert AllowedAt(cfg, trace, j);
    FailsCountBack(trace, i, j);
  }

  lemma {:induction false} FailsWithinCap(cfg: Config, trace: seq<Event>, i: nat)
    requires Legal(cfg, trace) && cfg.cap > 0 && i <= |trace|
    ensures PastAt(trace, i).fails <= cfg.cap
  {
    if i > 0 {
      FailsWithinCap(cfg, trace, i - 1);
      assert AllowedAt(cfg, trace, i - 1);
    }
  }

  lemma {:induction false} NoConnectAtCap(cfg: Config, trace: seq<Event>, j: nat, k: nat)
    requires Legal(cfg, trace) && cfg.cap > 0 && j <= k < |trace| && PastAt(trace, j).fails == cfg.cap
    ensures PastAt(trace, k).fails == cfg.cap && !IsConnect(trace[k])
  {
    if j < k {
      NoConnectAtCap(cfg, trace, j, k - 1);
      assert AllowedAt(cfg, trace, k - 1);
    }
    assert AllowedAt(cfg, trace, k);
  }

  /** A stretch without a success holds at most `cap` failed connects, and once it
      holds `cap` of them nothing ever connects again. */
  lemma CapHolds(cfg: Config, trace: seq<Event>, i: nat, j: nat)
    requires Legal(cfg, trace) && cfg.cap > 0 && i <= j <= |trace|
    requires forall k | i <= k < j :: trace[k] != Up
    ensures Count(ConnectFailed, trace, i, j) <= cfg.cap
    ensures Count(ConnectFailed, trace, i, j) == cfg.cap ==> forall k | j <= k < |trace| :: !IsConnect(trace[k])
  {
    FailsCountBack(trace, i, j);
    FailsWithinCap(cfg, trace, j);
    if Count(ConnectFailed, trace, i, j) == cfg.cap {
      forall k | j <= k < |trace|
        ensures !IsConnect(trace[k])
      {
        NoConnectAtCap(cfg, trace, j, k);
      }
    }
  }

  lemma {:induction false} LossLasts(cfg: Config, trace: seq<Event>, i: nat, j: nat)
    requires Legal(cfg, trace) && i < j <= |trace| && trace[i] == Down(true)
    requires forall k | i < k < j :: !IsConnect(trace[k])
    ensures var p := PastAt(trace, j); p.lost && !p.open && p.waits == Count(Demand, trace, i, j)
  {
    assert AllowedAt(cfg, trace, j - 1);
    if i + 1 < j {
      LossLasts(cfg, trace, i, j - 1);
    }
  }

  /** Between a loss and the next connect of a lazy loop lies exactly one demand wait. */
  lemma OneDemandPerLoss(cfg: Config, trace: seq<Event>, i: nat, j: nat)
    requires Legal(cfg, trace) && cfg.Lazy() && i < j < |trace|
    requires trace[i] == Down(true) && IsConnect(trace[j])
    requires forall k | i < k < j :: !IsConnect(trace[k])
    ensures Count(Demand, trace, i, j) == 1
  {
    LossLasts(cfg, trace, i, j);
    assert AllowedAt(cfg, trace, j);
  }

  lemma {:induction false} OpenLasts(cfg: Config, trace: seq<Event>, i: nat, j: nat)
    requires Legal(cfg, trace) && i < j <= |trace| && (trace[i].Up? || trace[i].Down?)
    requires forall k | i < k < j :: if trace[i].Up? then !trace[k].Down? else !trace[k].Up?
    ensures PastAt(trace, j).open == trace[i].Up?
  {
    assert AllowedAt(cfg, trace, j - 1);
    if i + 1 < j {
      OpenLasts(cfg, trace, i, j - 1);
    }
  }

  /** OnConnected and OnDisconnected alternate: between two of the same kind lies one
      of the other. */
  lemma CallbacksAlternate(cfg: Config, trace: seq<Event>, i: nat, j: nat)
    requires Legal(cfg, trace) && i < j < |trace|
    requires (trace[i].Up? && trace[j].Up?) || (trace[i].Down? && trace[j].Down?)
    ensures exists k :: i < k < j && if trace[i].Up? then trace[k].Down? else trace[k].Up?
  {
    assert AllowedAt(cfg, trace, j);
    if forall k | i < k < j :: if trace[i].Up? then !trace[k].Down? else !trace[k].Up? {
      OpenLasts(cfg, trace, i, j);
    }
  }

  function Delays(trace: seq<Event>, i: nat, j: nat): nat
    requires i <= j <= |trace|
  {
    if i == j then 0 else Delays(trace, i, j - 1) + if trace[j - 1].Delay? then 1 else 0
  }

  // What a failed connect, or a loss outside lazy mode, leaves to be done.
  predicate CallsForDelay(cfg: Config, e: Event) {
    e.ConnectFailed? || (e == Down(true) && !cfg.Lazy())
  }

  lemma {:induction false} DelayStaysOwed(cfg: Config, trace: seq<Event>, i: nat, j: nat)
    requires Legal(cfg, trace) && i < j <= |trace| && CallsForDelay(cfg, trace[i])
    requires forall k | i < k < j :: !IsConnect(trace[k])
    ensures var p := PastAt(trace, j); OwesDelay(cfg, p) && !p.open && p.delays == Delays(trace, i, j)
  {
    assert AllowedAt(cfg, trace, j - 1);
    if i + 1 < j {
      DelayStaysOwed(cfg, trace, i, j - 1);
    } else {
      assert Delays(trace, i, i) == 0;
    }
  }

  /** Between a failed connect, or a loss outside lazy mode, and the next connect lies
      exactly one delay. */
  lemma OneDelayPerFailure(cfg: Config, trace: seq<Event>, i: nat, j: nat)
    requires Legal(cfg, trace) && i < j < |trace| && CallsForDelay(cfg, trace[i]) && IsConnect(trace[j])
    requires forall k | i < k < j :: !IsConnect(trace[k])
    ensures Delays(trace, i, j) == 1
  {
    DelayStaysOwed(cfg, trace, i, j);
    assert AllowedAt(cfg, trace, j);
  }

  predicate PastOk(cfg: Config, p: Past) {
    && (p.lost || p.ended ==> p.fails == 0 && !p.failed) && !(p.lost && p.ended)
    && (p.open ==> p.fails == 0 && !p.failed && !p.lost && !p.ended)
    && (p.waits > 0 ==> p.lost && cfg.Lazy())
  }

  lemma {:induction false} PastIsOk(cfg: Config, trace: seq<Event>, i: nat)
    requires Legal(cfg, trace) && i <= |trace|
    ensures PastOk(cfg, PastAt(trace, i))
  {
    if i > 0 {
      PastIsOk(cfg, trace, i - 1);
      assert AllowedAt(cfg, trace, i - 1);
    }
  }

  /** The strategy is reset only right after a clean end or a demand. */
  lemma ResetHasCause(cfg: Config, trace: seq<Event>, i: nat)
    requires Legal(cfg, trace) && i < |trace| && trace[i] == Reset
    ensures i > 0 && (trace[i - 1] == Down(false) || trace[i - 1] == Demand)
  {
    assert AllowedAt(cfg, trace, i);
    if i > 0 {
      PastIsOk(cfg, trace, i - 1);
      assert AllowedAt(cfg, trace, i - 1);
    }
  }

  /** A delay comes only right after a failed connect, or a loss outside lazy mode. */
  lemma DelayHasCause(cfg: Config, trace: seq<Event>, i: nat)
    requires Legal(cfg, trace) && i < |trace| && trace[i].Delay?
    ensures i > 0 && CallsForDelay(cfg, trace[i - 1])
  {
    assert AllowedAt(cfg, trace, i);
    if i > 0 {
      PastIsOk(cfg, trace, i - 1);
      assert AllowedAt(cfg, trace, i - 1);
    }
  }
}
