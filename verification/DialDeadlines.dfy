/**
  Deadline splitting over the addresses of one name (internal/netstack/tun.go):
  partialDeadline and the address loop of Net.DialContext. Times are nanoseconds.
 */
module DialDeadlines {
  import opened Options

  const SANE_MINIMUM := 2_000_000_000

  datatype CtxState = Live | Canceled | DeadlineExceeded

  datatype Error = ErrCanceled | ErrTimeout | ErrMissingAddress | ErrDial(code: nat)

  // What one turn of the loop meets: the context, the clock, and how the dial ends.
  datatype Try = Try(ctx: CtxState, now: int, failure: Option<nat>)

  datatype Result = Conn(index: nat) | Fail(error: Error)

  // No deadline is the zero time in the source.
  function PartialDeadline(now: int, deadline: Option<int>, remaining: nat): (r: Option<Option<int>>)
    requires remaining > 0
  {
    if deadline.None? then Some(None)
    else if deadline.value - now <= 0 then None
    else Some(Some(now + Timeout(deadline.value - now, remaining)))
  }

  function Timeout(timeRemaining: int, remaining: nat): int
    requires remaining > 0 && timeRemaining > 0
  {
    if timeRemaining / remaining >= SANE_MINIMUM then timeRemaining / remaining
    else if timeRemaining < SANE_MINIMUM then timeRemaining
    else SANE_MINIMUM
  }

  lemma QuotientBounds(a: int, n: nat)
    requires n > 0 && a > 0
    ensures 0 <= a / n <= a && n * (a / n) <= a < n * (a / n) + n
  {
    assert a / n <= a by {
      assert n * (a / n) <= a;
      Scale(1, n, a / n);
    }
  }

  lemma Scale(m: int, n: int, x: int)
    requires m <= n && x >= 0
    ensures m * x <= n * x
  {
  }

  /** An attempt's deadline lies after now and never after the caller's; the last address
      gets all the time there is; nobody gets less than 2 s while 2 s are left. */
  lemma AttemptWithinCaller(now: int, deadline: int, remaining: nat)
    requires remaining > 0 && now < deadline
    ensures var r := PartialDeadline(now, Some(deadline), remaining);
            && r.Some? && r.value.Some? && now < r.value.value <= deadline
            && (remaining == 1 ==> r.value.value == deadline)
            && (r.value.value < deadline ==> r.value.value - now >= SANE_MINIMUM)
            && r.value.value - now >= (deadline - now) / remaining
  {
    QuotientBounds(deadline - now, remaining);
  }

  // Turn i of the loop goes as far as dialing.
  predicate Dials(deadline: Option<int>, tries: seq<Try>, i: nat)
    requires i < |tries|
  {
    tries[i].ctx.Live? && PartialDeadline(tries[i].now, deadline, |tries| - i).Some?
  }

  function CtxError(c: CtxState): Error {
    if c.Canceled? then ErrCanceled else ErrTimeout
  }

  // ---- How the time is shared out.

  // The fair share of address i when its turn comes at nows[i].
  function Share(deadline: int, nows: seq<int>, i: nat): int
    requires i < |nows|
  {
    (deadline - nows[i]) / (|nows| - i)
  }

  function AttemptEnd(deadline: int, nows: seq<int>, i: nat): int
    requires i < |nows| && nows[i] < deadline
  {
    nows[i] + Timeout(deadline - nows[i], |nows| - i)
  }

  // No attempt lasts past the deadline it was given.
  predicate NoOverrun(deadline: int, nows: seq<int>) {
    forall i: nat | i + 1 < |nows| && nows[i] < deadline :: nows[i + 1] <= AttemptEnd(deadline, nows, i)
  }

  lemma ShareGrows(deadline: int, now: int, now': int, n: nat)
    requires n >= 2 && (deadline - now) / n >= SANE_MINIMUM && now' <= now + (deadline - now) / n
    ensures (deadline - now') / (n - 1) >= (deadline - now) / n
  {
    var s, left := (deadline - now) / n, deadline - now';
    QuotientBounds(deadline - now, n);
    assert left >= n * s - s == (n - 1) * s;
    if left / (n - 1) < s {
      QuotientBounds(left, n - 1);
      Scale(left / (n - 1) + 1, s, n - 1);
      assert false;
    }
  }

  // With a fair share of 2 s there is time, and the attempt gets just that share.
  lemma ShareIsGiven(deadline: int, nows: seq<int>, i: nat)
    requires i < |nows| && Share(deadline, nows, i) >= SANE_MINIMUM
    ensures nows[i] < deadline && AttemptEnd(deadline, nows, i) == nows[i] + Share(deadline, nows, i)
  {
  }

  lemma NextShare(deadline: int, nows: seq<int>, i: nat)
    requires i + 1 < |nows| && NoOverrun(deadline, nows) && Share(deadline, nows, i) >= SANE_MINIMUM
    ensures Share(deadline, nows, i + 1) >= Share(deadline, nows, i)
  {
    ShareIsGiven(deadline, nows, i);
    ShareGrows(deadline, nows[i], nows[i + 1], |nows| - i);
  }

  /** If the first fair share is at least 2 s and no attempt overruns its deadline, every
      address is reached in time, with a share that never shrinks. */
  lemma {:induction false} SharesNeverShrink(deadline: int, nows: seq<int>, i: nat)
    requires i < |nows| && NoOverrun(deadline, nows) && Share(deadline, nows, 0) >= SANE_MINIMUM
    ensures nows[i] < deadline && Share(deadline, nows, i) >= SANE_MINIMUM
    ensures AttemptEnd(deadline, nows, i) == nows[i] + Share(deadline, nows, i)
    ensures i > 0 ==> Share(deadline, nows, i - 1) <= Share(deadline, nows, i)
    ensures Share(deadline, nows, 0) <= Share(deadline, nows, i)
  {
    if i > 0 {
      SharesNeverShrink(deadline, nows, i - 1);
      NextShare(deadline, nows, i - 1);
    }
    ShareIsGiven(deadline, nows, i);
  }

  // Every attempt uses up all it was given.
  predicate Exhausting(deadline: int, nows: seq<int>) {
    forall i: nat | i + 1 < |nows| ::
      nows[i + 1] == if nows[i] < deadline then AttemptEnd(deadline, nows, i) else nows[i]
  }

  lemma ReachStep(left: int, n: nat, left': int)
    requires n >= 2 && left > SANE_MINIMUM * (n - 1) && left' >= left - Timeout(left, n)
    ensures left' > SANE_MINIMUM * (n - 2)
  {
    QuotientBounds(left, n);
    var s := left / n;
    if s >= SANE_MINIMUM {
      assert left - s >= n * s - s == (n - 1) * s;
      Scale(SANE_MINIMUM, s, n - 1);
    }
  }

  lemma StarveStep(left: int, n: nat)
    requires n >= 2 && 0 < left <= SANE_MINIMUM * (n - 1)
    ensures left - Timeout(left, n) <= SANE_MINIMUM * (n - 2)
  {
    QuotientBounds(left, n);
    var s := left / n;
    if s >= SANE_MINIMUM {
      Scale(SANE_MINIMUM, s, n);
      assert false;
    }
  }

  lemma {:induction false} TimeLeft(deadline: int, nows: seq<int>, i: nat)
    requires i < |nows| && NoOverrun(deadline, nows) && deadline - nows[0] > SANE_MINIMUM * (|nows| - 1)
    ensures deadline - nows[i] > SANE_MINIMUM * (|nows| - i - 1) >= 0
  {
    if i > 0 {
      TimeLeft(deadline, nows, i - 1);
      assert nows[i - 1 + 1] <= AttemptEnd(deadline, nows, i - 1);
      ReachStep(deadline - nows[i - 1], |nows| - (i - 1), deadline - nows[i]);
    }
  }

  lemma {:induction false} TimeRunsOut(deadline: int, nows: seq<int>, i: nat)
    requires i < |nows| && Exhausting(deadline, nows) && deadline - nows[0] <= SANE_MINIMUM * (|nows| - 1)
    ensures deadline - nows[i] <= SANE_MINIMUM * (|nows| - i - 1)
  {
    if i > 0 {
      TimeRunsOut(deadline, nows, i - 1);
      assert nows[i - 1 + 1] == if nows[i - 1] < deadline then AttemptEnd(deadline, nows, i - 1) else nows[i - 1];
      if nows[i - 1] < deadline {
        StarveStep(deadline - nows[i - 1], |nows| - (i - 1));
      }
    }
  }

  /** When every attempt hangs for all its time, every address of a list is still tried
      exactly when more than 2 s are there for each address but the last: the 2 s minimum
      is taken from the addresses at the end. */
  lemma AllReachedIff(deadline: int, nows: seq<int>)
    requires nows != [] && Exhausting(deadline, nows)
    ensures (forall i: nat | i < |nows| :: nows[i] < deadline)
            <==> deadline - nows[0] > SANE_MINIMUM * (|nows| - 1)
  {
    if deadline - nows[0] > SANE_MINIMUM * (|nows| - 1) {
      forall i: nat | i < |nows|
        ensures nows[i] < deadline
      {
        TimeLeft(deadline, nows, i);
      }
    } else {
      TimeRunsOut(deadline, nows, |nows| - 1);
      assert nows[|nows| - 1] >= deadline;
    }
  }

  // The turns of attempts that use up all they are given, from time `now` on.
  function ExhaustingFrom(deadline: int, now: int, n: nat): (nows: seq<int>)
    ensures |nows| == n && (n > 0 ==> nows[0] == now)
    decreases n
  {
    if n == 0 then []
    else [now] + ExhaustingFrom(deadline, if now < deadline then now + Timeout(deadline - now, n) else now, n - 1)
  }

  lemma {:induction false} ExhaustingFromIs(deadline: int, now: int, n: nat)
    ensures Exhausting(deadline, ExhaustingFrom(deadline, now, n))
    decreases n
  {
    if n > 0 {
      var next := if now < deadline then now + Timeout(deadline - now, n) else now;
      var nows, rest := ExhaustingFrom(deadline, now, n), ExhaustingFrom(deadline, next, n - 1);
      ExhaustingFromIs(deadline, next, n - 1);
      forall i: nat | i + 1 < |nows|
        ensures nows[i + 1] == if nows[i] < deadline then AttemptEnd(deadline, nows, i) else nows[i]
      {
        if i > 0 {
          assert rest[i - 1 + 1] == if rest[i - 1] < deadline then AttemptEnd(deadline, rest, i - 1) else rest[i - 1];
          assert nows[i] == rest[i - 1] && nows[i + 1] == rest[i];
        }
      }
    }
  }

  /** Whenever there are no more than 2 s for each address but the last, some hanging
      attempts do starve the last address. */
  lemma LastAddressStarves(deadline: int, now: int, n: nat) returns (nows: seq<int>)
    requires n > 0 && deadline - now <= SANE_MINIMUM * (n - 1)
    ensures |nows| == n && nows[0] == now && Exhausting(deadline, nows) && nows[n - 1] >= deadline
  {
    nows := ExhaustingFrom(deadline, now, n);
    ExhaustingFromIs(deadline, now, n);
    TimeRunsOut(deadline, nows, n - 1);
  }

  // ---- The loop.

  // Every attempt fails, and every context lives as long as the caller's deadline lets it.
  predicate AllHang(deadline: int, tries: seq<Try>) {
    forall t | t in tries :: (t.now < deadline ==> t.ctx.Live?) && t.failure.Some?
  }

  function Nows(tries: seq<Try>): (nows: seq<int>)
    ensures |nows| == |tries|
  {
    seq(|tries|, i requires 0 <= i < |tries| => tries[i].now)
  }

  // Turn i finds no time left.
  lemma OutOfTime(deadline: int, tries: seq<Try>, i: nat)
    requires i < |tries| && PartialDeadline(tries[i].now, Some(deadline), |tries| - i).None?
    ensures NoOverrun(deadline, Nows(tries)) ==> deadline - tries[0].now <= SANE_MINIMUM * (|tries| - 1)
    ensures Exhausting(deadline, Nows(tries)) ==> deadline - tries[0].now <= SANE_MINIMUM * (|tries| - 1)
  {
    var nows := Nows(tries);
    assert nows[i] >= deadline;
    if Exhausting(deadline, nows) {
      AllReachedIff(deadline, nows);
    }
    if NoOverrun(deadline, nows) && deadline - nows[0] > SANE_MINIMUM * (|tries| - 1) {
      TimeLeft(deadline, nows, i);
    }
  }

  // Every turn found time.
  lemma AllInTime(deadline: int, tries: seq<Try>)
    requires tries != [] && forall i: nat | i < |tries| :: Dials(Some(deadline), tries, i)
    ensures Exhausting(deadline, Nows(tries)) ==> deadline - tries[0].now > SANE_MINIMUM * (|tries| - 1)
  {
    var nows := Nows(tries);
    if Exhausting(deadline, nows) {
      forall i: nat | i < |nows|
        ensures nows[i] < deadline
      {
        assert Dials(Some(deadline), tries, i);
      }
      AllReachedIff(deadline, nows);
    }
  }

  /** The address loop. `given` are the deadlines of the attempts it made: it stops at the
      first success, at a dead context, or when no time is left, and reports the first
      attempt's error. */
  method DialContext(deadline: Option<int>, tries: seq<Try>) returns (r: Result, given: seq<Option<int>>)
    ensures |given| <= |tries|
    ensures forall i | 0 <= i < |given| ::
              Dials(deadline, tries, i) && Some(given[i]) == PartialDeadline(tries[i].now, deadline, |tries| - i)
    ensures forall i | 0 <= i < |given| - 1 :: tries[i].failure.Some?
    ensures r.Conn? ==> r.index == |given| - 1 && tries[r.index].failure.None?
    ensures r.Fail? ==>
              && (forall i | 0 <= i < |given| :: tries[i].failure.Some?)
              && (|given| < |tries| ==> !Dials(deadline, tries, |given|))
              && r.error == if |given| < |tries| && !tries[|given|].ctx.Live? then CtxError(tries[|given|].ctx)
                            else if given != [] then ErrDial(tries[0].failure.value)
                            else if tries == [] then ErrMissingAddress else ErrTimeout
    ensures deadline.Some? && tries != [] && AllHang(deadline.value, tries)
            && NoOverrun(deadline.value, Nows(tries)) ==>
              (deadline.value - tries[0].now > SANE_MINIMUM * (|tries| - 1) ==> |given| == |tries|)
    ensures deadline.Some? && tries != [] && AllHang(deadline.value, tries)
            && Exhausting(deadline.value, Nows(tries)) ==>
              (|given| == |tries| <==> deadline.value - tries[0].now > SANE_MINIMUM * (|tries| - 1))
  {
    var firstErr: Option<Error> := None;
    given := [];
    for i := 0 to |tries|
      invariant |given| == i
      invariant forall k | 0 <= k < i ::
                  Dials(deadline, tries, k) && Some(given[k]) == PartialDeadline(tries[k].now, deadline, |tries| - k)
      invariant forall k | 0 <= k < i :: tries[k].failure.Some?
      invariant firstErr == if i == 0 then None else Some(ErrDial(tries[0].failure.value))
    {
      var t := tries[i];
      if !t.ctx.Live? {
        if deadline.Some? && AllHang(deadline.value, tries) {
          assert t in tries;
          OutOfTime(deadline.value, tries, i);
        }
        return Fail(CtxError(t.ctx)), given;
      }
      var dialDeadline := None;
      if deadline.Some? {
        var partial := PartialDeadline(t.now, deadline, |tries| - i);
        if partial.None? {
          if firstErr.None? {
            firstErr := Some(ErrTimeout);
          }
          OutOfTime(deadline.value, tries, i);
          break;
        }
        AttemptWithinCaller(t.now, deadline.value, |tries| - i);
        dialDeadline := if partial.value.value < deadline.value then partial.value else deadline;
      }
      given := given + [dialDeadline];
      if t.failure.None? {
        assert t in tries;
        return Conn(i), given;
      }
      if firstErr.None? {
        firstErr := Some(ErrDial(t.failure.value));
      }
    }
    if |given| == |tries| && tries != [] && deadline.Some? {
      AllInTime(deadline.value, tries);
    }
    r := Fail(if firstErr.None? then ErrMissingAddress else firstErr.value);
  }
}
