/**
  The WireGuard watchdog of cmd/wg_transport.go: superviseWireGuard polls the peer
  counters, declares a wedge, and re-points the endpoint with backoff until traffic
  resumes. Times are nanoseconds of a clock that never runs backwards.
 */
module WgSupervisor {
  import opened Options

  const SECOND := 1_000_000_000
  const WEDGE_KEEPALIVE_FACTOR := 3
  const MIN_WEDGE_WINDOW := 60 * SECOND
  const INITIAL_BACKOFF := 2 * SECOND
  const MAX_BACKOFF := 300 * SECOND

  datatype Health = Health(tx: nat, rx: nat, handshake: int)

  // One poll: whether the device answered, what it said, and the clock readings for the
  // progress check, the backoff check and the attempt.
  datatype Tick = Tick(ok: bool, health: Health, now: nat, at: nat, stamp: nat)

  // `first` and `start` are the readings taken before the loop.
  datatype Run = Run(first: Health, start: nat, keepalive: int, ticks: seq<Tick>)

  datatype Sup = Sup(prev: Health, lastProgress: nat, down: bool, lastAttempt: Option<nat>, backoff: nat)

  function Window(keepalive: int): nat {
    var w := WEDGE_KEEPALIVE_FACTOR * keepalive * SECOND;
    if w < MIN_WEDGE_WINDOW then MIN_WEDGE_WINDOW else w
  }

  predicate Wedged(sent: bool, sinceProgress: int, window: nat) {
    sent && sinceProgress >= window
  }

  function NextBackoff(d: nat): nat {
    if 2 * d > MAX_BACKOFF then MAX_BACKOFF else 2 * d
  }

  predicate Progressed(prev: Health, cur: Health) {
    cur.rx > prev.rx || cur.handshake > prev.handshake
  }

  // No attempt yet means the zero time, which is older than any backoff.
  predicate Due(s: Sup, at: nat) {
    s.lastAttempt.None? || at - s.lastAttempt.value >= s.backoff
  }

  predicate TickWedges(s: Sup, window: nat, t: Tick) {
    t.ok && !Progressed(s.prev, t.health) && Wedged(t.health.tx > s.prev.tx, t.now - s.lastProgress, window)
  }

  predicate TickAttempts(s: Sup, window: nat, t: Tick) {
    TickWedges(s, window, t) && Due(s, t.at)
  }

  function Step(s: Sup, window: nat, t: Tick): Sup {
    if !t.ok then s
    else if Progressed(s.prev, t.health) then
      Sup(t.health, t.now, false, s.lastAttempt, if s.down then INITIAL_BACKOFF else s.backoff)
    else
      var s' := s.(prev := t.health, down := s.down || TickWedges(s, window, t));
      if TickAttempts(s, window, t) then s'.(lastAttempt := Some(t.stamp), backoff := NextBackoff(s.backoff)) else s'
  }

  // The state after the first n ticks.
  function After(r: Run, n: nat): Sup
    requires n <= |r.ticks|
  {
    if n == 0 then Sup(r.first, r.start, false, None, INITIAL_BACKOFF)
    else Step(After(r, n - 1), Window(r.keepalive), r.ticks[n - 1])
  }

  predicate Declares(r: Run, i: nat)
    requires i < |r.ticks|
  {
    !After(r, i).down && After(r, i + 1).down
  }

  predicate Attempts(r: Run, i: nat)
    requires i < |r.ticks|
  {
    TickAttempts(After(r, i), Window(r.keepalive), r.ticks[i])
  }

  /** The loop itself. `downs` is the tunnel flag after each tick, `repoints` the ticks
      that re-pointed the endpoint, `resets` the ticks that reset the tracked connections. */
  method SuperviseWireGuard(r: Run) returns (downs: seq<bool>, repoints: set<nat>, resets: set<nat>)
    ensures |downs| == |r.ticks| && forall i: nat | i < |downs| :: downs[i] == After(r, i + 1).down
    ensures forall i: nat :: i in repoints <==> i < |r.ticks| && Attempts(r, i)
    ensures forall i: nat :: i in resets <==> i < |r.ticks| && Declares(r, i)
  {
    var window := WEDGE_KEEPALIVE_FACTOR * r.keepalive * SECOND;
    if window < MIN_WEDGE_WINDOW {
      window := MIN_WEDGE_WINDOW;
    }
    var prev, lastProgress, down := r.first, r.start, false;
    var lastAttempt: Option<nat> := None;
    var backoff: nat := INITIAL_BACKOFF;
    downs, repoints, resets := [], {}, {};
    var n := 0;
    while n < |r.ticks|
      invariant 0 <= n <= |r.ticks| && window == Window(r.keepalive)
      invariant After(r, n) == Sup(prev, lastProgress, down, lastAttempt, backoff)
      invariant |downs| == n && forall i: nat | i < n :: downs[i] == After(r, i + 1).down
      invariant forall i: nat :: i in repoints <==> i < n && Attempts(r, i)
      invariant forall i: nat :: i in resets <==> i < n && Declares(r, i)
    {
      var t := r.ticks[n];
      n := n + 1;
      if t.ok {
        var progressed := t.health.rx > prev.rx || t.health.handshake > prev.handshake;
        var sent := t.health.tx > prev.tx;
        prev := t.health;
        if progressed {
          lastProgress := t.now;
          if down {
            down, backoff := false, INITIAL_BACKOFF;
          }
        } else if Wedged(sent, t.now - lastProgress, window) {
          if !down {
            down := true;
            resets := resets + {n - 1};
          }
          if lastAttempt.None? || t.at - lastAttempt.value >= backoff {
            lastAttempt := Some(t.stamp);
            repoints := repoints + {n - 1};
            backoff := NextBackoff(backoff);
          }
        }
      }
      downs := downs + [down];
    }
  }

  // ---- What the ticks alone say.

  // The last answer before tick n.
  function Sample(r: Run, n: nat): Health
    requires n <= |r.ticks|
  {
    if n == 0 then r.first else if r.ticks[n - 1].ok then r.ticks[n - 1].health else Sample(r, n - 1)
  }

  predicate ProgressAt(r: Run, i: nat)
    requires i < |r.ticks|
  {
    var h := r.ticks[i].health;
    r.ticks[i].ok && (h.rx > Sample(r, i).rx || h.handshake > Sample(r, i).handshake)
  }

  predicate SentAt(r: Run, i: nat)
    requires i < |r.ticks|
  {
    r.ticks[i].ok && r.ticks[i].health.tx > Sample(r, i).tx
  }

  // The time of the last progress before tick n.
  function ProgressTime(r: Run, n: nat): nat
    requires n <= |r.ticks|
  {
    if n == 0 then r.start else if ProgressAt(r, n - 1) then r.ticks[n - 1].now else ProgressTime(r, n - 1)
  }

  predicate WedgeAt(r: Run, i: nat)
    requires i < |r.ticks|
  {
    SentAt(r, i) && !ProgressAt(r, i) && r.ticks[i].now - ProgressTime(r, i) >= Window(r.keepalive)
  }

  predicate SilentBetween(r: Run, i: nat, n: nat)
    requires n <= |r.ticks|
  {
    forall j: nat | i < j < n :: !ProgressAt(r, j)
  }

  lemma {:induction false} StateTellsTicks(r: Run, n: nat)
    requires n <= |r.ticks|
    ensures After(r, n).prev == Sample(r, n) && After(r, n).lastProgress == ProgressTime(r, n)
  {
    if n > 0 {
      StateTellsTicks(r, n - 1);
    }
  }

  lemma WedgeIsWedge(r: Run, i: nat)
    requires i < |r.ticks|
    ensures ProgressAt(r, i) <==> r.ticks[i].ok && Progressed(After(r, i).prev, r.ticks[i].health)
    ensures WedgeAt(r, i) <==> TickWedges(After(r, i), Window(r.keepalive), r.ticks[i])
  {
    StateTellsTicks(r, i);
  }

  /** The tunnel is down exactly between a declared wedge and the next receive progress. */
  lemma {:induction false} DownExactlyInOutages(r: Run, n: nat)
    requires n <= |r.ticks|
    ensures After(r, n).down <==> exists i: nat :: i < n && WedgeAt(r, i) && SilentBetween(r, i, n)
  {
    if n > 0 {
      DownExactlyInOutages(r, n - 1);
      WedgeIsWedge(r, n - 1);
      if After(r, n).down {
        if WedgeAt(r, n - 1) {
          assert SilentBetween(r, n - 1, n);
        } else {
          var i: nat :| i < n - 1 && WedgeAt(r, i) && SilentBetween(r, i, n - 1);
          assert SilentBetween(r, i, n);
        }
      } else if i: nat :| i < n && WedgeAt(r, i) && SilentBetween(r, i, n) {
        assert i < n - 1 ==> SilentBetween(r, i, n - 1);
      }
    }
  }

  /** An idle tunnel, one whose transmit counter never grows, is never taken down. */
  lemma IdleStaysUp(r: Run, n: nat)
    requires n <= |r.ticks| && forall i: nat | i < n && r.ticks[i].ok :: r.ticks[i].health.tx <= Sample(r, i).tx
    ensures !After(r, n).down
  {
    DownExactlyInOutages(r, n);
  }

  /** Nor is one whose last progress is always younger than the window. */
  lemma FreshStaysUp(r: Run, n: nat)
    requires n <= |r.ticks|
    requires forall i: nat | i < n && r.ticks[i].ok :: r.ticks[i].now - ProgressTime(r, i) < Window(r.keepalive)
    ensures !After(r, n).down
  {
    DownExactlyInOutages(r, n);
  }

  // ---- Timing of the re-point attempts.

  predicate ClockOk(r: Run) {
    && (|r.ticks| > 0 ==> r.start <= r.ticks[0].now)
    && (forall i: nat | i < |r.ticks| :: r.ticks[i].now <= r.ticks[i].at <= r.ticks[i].stamp)
    && (forall i: nat | 0 < i < |r.ticks| :: r.ticks[i - 1].stamp <= r.ticks[i].now)
  }

  function Clock(r: Run, n: nat): nat
    requires n <= |r.ticks|
  {
    if n == 0 then r.start else r.ticks[n - 1].stamp
  }

  predicate Between(s: Sup, clock: nat) {
    && s.lastProgress <= clock
    && (s.lastAttempt.Some? ==> s.lastAttempt.value <= clock)
    && (!s.down ==> s.backoff == INITIAL_BACKOFF)
    && (!s.down && s.lastAttempt.Some? ==> s.lastAttempt.value <= s.lastProgress)
  }

  lemma {:induction false} AttemptsPrecedeProgress(r: Run, n: nat)
    requires ClockOk(r) && n <= |r.ticks|
    ensures Between(After(r, n), Clock(r, n))
  {
    if n > 0 {
      AttemptsPrecedeProgress(r, n - 1);
    }
  }

  /** The tick that declares an outage also attempts a re-point: an attempt of an earlier
      outage is older than the progress that ended it, hence older than the backoff. */
  lemma DeclaringTickAttempts(r: Run, i: nat)
    requires ClockOk(r) && i < |r.ticks| && Declares(r, i)
    ensures Attempts(r, i)
  {
    AttemptsPrecedeProgress(r, i);
  }

  function Pow2(k: nat): nat {
    if k == 0 then 1 else 2 * Pow2(k - 1)
  }

  // The least gap after the k-th attempt of an outage.
  function Gap(k: nat): nat {
    if Pow2(k + 1) > 300 then MAX_BACKOFF else Pow2(k + 1) * SECOND
  }

  function AttemptCount(r: Run, i: nat, n: nat): nat
    requires i <= n <= |r.ticks|
    decreases n
  {
    if n == i then 0 else AttemptCount(r, i, n - 1) + if Attempts(r, n - 1) then 1 else 0
  }

  // The least time between the first and the k-th attempt.
  function GapSum(k: nat): nat {
    if k <= 1 then 0 else GapSum(k - 1) + Gap(k - 1)
  }

  // Within the outage declared by tick i.
  predicate InOutage(r: Run, i: nat, n: nat)
    requires i < n <= |r.ticks|
  {
    var s, k := After(r, n), AttemptCount(r, i, n);
    && s.down && k >= 1 && s.backoff == Gap(k) && s.lastAttempt.Some?
    && r.ticks[i].stamp + GapSum(k) <= s.lastAttempt.value <= r.ticks[n - 1].stamp
  }

  lemma OutageBegins(r: Run, i: nat)
    requires ClockOk(r) && i < |r.ticks| && Declares(r, i)
    ensures InOutage(r, i, i + 1) && AttemptCount(r, i, i + 1) == 1
  {
    DeclaringTickAttempts(r, i);
    AttemptsPrecedeProgress(r, i);
    assert AttemptCount(r, i, i) == 0;
    assert Pow2(1) == 2 && Pow2(2) == 4;
  }

  lemma {:induction false} OutageGoesOn(r: Run, i: nat, n: nat)
    requires ClockOk(r) && i < n <= |r.ticks| && Declares(r, i) && SilentBetween(r, i, n)
    ensures InOutage(r, i, n)
    decreases n
  {
    if n == i + 1 {
      OutageBegins(r, i);
    } else {
      OutageGoesOn(r, i, n - 1);
      WedgeIsWedge(r, n - 1);
      var k := AttemptCount(r, i, n - 1);
      assert Pow2(k + 2) == 2 * Pow2(k + 1);
      assert NextBackoff(Gap(k)) == Gap(k + 1);
    }
  }

  /** Attempts k and k+1 of one outage are at least min(2^(k+1) s, 300 s) apart. */
  lemma AttemptsAreSpaced(r: Run, i: nat, m: nat, n: nat)
    requires ClockOk(r) && i <= m < n < |r.ticks| && Declares(r, i) && SilentBetween(r, i, n + 1)
    requires Attempts(r, m) && Attempts(r, n) && forall j: nat | m < j < n :: !Attempts(r, j)
    ensures var k := AttemptCount(r, i, m + 1);
            && k >= 1 && r.ticks[n].at - r.ticks[m].stamp >= Gap(k)
            && AttemptCount(r, i, n + 1) == k + 1
  {
    assert forall p: nat | p <= n :: SilentBetween(r, i, p);
    OutageGoesOn(r, i, m + 1);
    QuietKeepsAttempt(r, i, m, n);
  }

  lemma {:induction false} QuietKeepsAttempt(r: Run, i: nat, m: nat, n: nat)
    requires ClockOk(r) && i <= m < n < |r.ticks| && Declares(r, i) && SilentBetween(r, i, n)
    requires Attempts(r, m) && forall j: nat | m < j < n :: !Attempts(r, j)
    ensures After(r, n).lastAttempt == Some(r.ticks[m].stamp)
    ensures AttemptCount(r, i, n) == AttemptCount(r, i, m + 1) && After(r, n).backoff == Gap(AttemptCount(r, i, n))
    decreases n
  {
    OutageGoesOn(r, i, n);
    if n > m + 1 {
      QuietKeepsAttempt(r, i, m, n - 1);
      WedgeIsWedge(r, n - 1);
    }
  }

  /** Exactly when an outage attempts again: after its k-th attempt at tick m, the next
      attempt is the first wedged tick that finds Gap(k) gone by. */
  lemma AttemptsExactlyWhenDue(r: Run, i: nat, m: nat, n: nat)
    requires ClockOk(r) && i <= m < n < |r.ticks| && Declares(r, i) && SilentBetween(r, i, n)
    requires Attempts(r, m) && forall j: nat | m < j < n :: !Attempts(r, j)
    ensures Attempts(r, n)
            <==> WedgeAt(r, n) && r.ticks[n].at - r.ticks[m].stamp >= Gap(AttemptCount(r, i, m + 1))
  {
    QuietKeepsAttempt(r, i, m, n);
    WedgeIsWedge(r, n);
  }

  /** So by any wedged tick at which Gap(k) has gone by since the k-th attempt, the next one
      has been made. */
  lemma NextAttemptIsSoon(r: Run, i: nat, m: nat, n: nat)
    requires ClockOk(r) && i <= m < n < |r.ticks| && Declares(r, i) && SilentBetween(r, i, n)
    requires Attempts(r, m) && WedgeAt(r, n) && r.ticks[n].at - r.ticks[m].stamp >= Gap(AttemptCount(r, i, m + 1))
    ensures exists j: nat :: m < j <= n && Attempts(r, j)
  {
    if forall j: nat | m < j < n :: !Attempts(r, j) {
      AttemptsExactlyWhenDue(r, i, m, n);
    }
  }

  lemma {:induction false} GapSumGrows(k: nat)
    requires k >= 8
    ensures Pow2(k) > 200 && GapSum(k) >= MAX_BACKOFF * (k - 8)
  {
    if k == 8 {
      assert Pow2(3) == 8 && Pow2(6) == 64 && Pow2(8) == 256;
    } else {
      GapSumGrows(k - 1);
      assert Pow2(k) == 2 * Pow2(k - 1);
    }
  }

  lemma GapSumAtLeast(k: nat)
    ensures GapSum(k) >= MAX_BACKOFF * (k - 8)
  {
    if k > 8 {
      GapSumGrows(k);
    }
  }

  lemma OutageLasts(r: Run, i: nat, n: nat)
    requires i < n <= |r.ticks| && InOutage(r, i, n)
    ensures GapSum(AttemptCount(r, i, n)) <= r.ticks[n - 1].stamp - r.ticks[i].stamp
  {
  }

  /** An outage that lasts T has at most 8 + T / 300 s attempts. */
  lemma AttemptsAreFew(r: Run, i: nat, n: nat)
    requires ClockOk(r) && i < n <= |r.ticks| && Declares(r, i) && SilentBetween(r, i, n)
    ensures MAX_BACKOFF * (AttemptCount(r, i, n) - 8) <= r.ticks[n - 1].stamp - r.ticks[i].stamp
  {
    OutageGoesOn(r, i, n);
    OutageLasts(r, i, n);
    GapSumAtLeast(AttemptCount(r, i, n));
  }
}
