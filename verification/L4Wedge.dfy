/**
  The wedge detector of api/l4proxy.go: when a failed CONNECT tears the shared
  connection down. The main theorem is about histories of whole calls; after it,
  a run of the interleaved model shows what the separate atomic accesses of
  noteConnFailure and closeConn give up.
 */
module L4Wedge {
  import opened Options
  import opened L4Shared
  import opened L4Interleaving

  datatype Call =
    | Dial                                      // dialConn whose build succeeds
    | OpenFail(c: Conn)                         // closeConn(c) after OpenRequestStream failed
    | Fail(c: Conn, cancelled: bool, now: nat)  // noteConnFailure
    | Answer                                    // Cloudflare answered a CONNECT
    | CloseCall

  datatype Proxy = Proxy(sh: Shared, next: Conn)

  function Apply(timeout: nat, p: Proxy, call: Call): Proxy {
    match call
    case Dial =>
      if Lookup(p.sh) == Absent then Proxy(StoreBuilt(p.sh, p.next), p.next + 1) else p
    case OpenFail(c) => p.(sh := TearDown(p.sh, Some(c)))
    case Fail(c, cancelled, now) => p.(sh := NoteFailure(p.sh, timeout, c, cancelled, now))
    case Answer => p.(sh := Answered(p.sh))
    case CloseCall => p.(sh := TakeAll(p.sh))
  }

  function Replay(timeout: nat, calls: seq<Call>): Proxy {
    if calls == [] then Proxy(Shared(false, None, 0, 0), 0)
    else Apply(timeout, Replay(timeout, calls[..|calls| - 1]), calls[|calls| - 1])
  }

  // The clock shows positive, non-decreasing times.
  ghost predicate Clocked(calls: seq<Call>) {
    && (forall i | 0 <= i < |calls| && calls[i].Fail? :: 0 < calls[i].now)
    && (forall i, j | 0 <= i < j < |calls| && calls[i].Fail? && calls[j].Fail? :: calls[i].now <= calls[j].now)
  }

  ghost predicate Quiet(timeout: nat, calls: seq<Call>, k: nat)
    requires k < |calls|
  {
    calls[k] != Answer
    && Replay(timeout, calls[..k + 1]).sh.reconnects == Replay(timeout, calls[..k]).sh.reconnects
  }

  /** Call `i` recorded a failure on the then current connection `c`, and neither an
      answer nor a teardown has come since. */
  ghost predicate Unanswered(timeout: nat, calls: seq<Call>, i: nat, c: Conn) {
    && i < |calls| && calls[i].Fail? && calls[i].c == c && !calls[i].cancelled
    && Replay(timeout, calls[..i]).sh.conn == Some(c)
    && forall k | i <= k < |calls| :: Quiet(timeout, calls, k)
  }

  lemma NoStampWithoutConn(timeout: nat, calls: seq<Call>)
    ensures var sh := Replay(timeout, calls).sh;
            (sh.closed ==> sh.conn == None) && (!sh.closed && sh.conn == None ==> sh.firstFail == 0)
  {
  }

  lemma UnansweredExtends(timeout: nat, calls: seq<Call>, call: Call, i: nat, c: Conn)
    requires Unanswered(timeout, calls, i, c)
    requires Quiet(timeout, calls + [call], |calls|)
    ensures Unanswered(timeout, calls + [call], i, c)
  {
    var more := calls + [call];
    assert more[..i] == calls[..i];
    forall k | i <= k < |more|
      ensures Quiet(timeout, more, k)
    {
      if k < |calls| {
        assert Quiet(timeout, calls, k);
        assert more[..k] == calls[..k] && more[..k + 1] == calls[..k + 1];
      }
    }
  }

  lemma {:induction false} StampHasCause(timeout: nat, calls: seq<Call>, c: Conn) returns (i: nat)
    requires Replay(timeout, calls).sh.conn == Some(c) && Replay(timeout, calls).sh.firstFail != 0
    ensures Unanswered(timeout, calls, i, c) && calls[i].now == Replay(timeout, calls).sh.firstFail
  {
    var before, call := calls[..|calls| - 1], calls[|calls| - 1];
    var p := Replay(timeout, before);
    assert calls == before + [call] && calls[..|calls|] == calls;
    NoStampWithoutConn(timeout, before);
    if p.sh.conn == Some(c) && p.sh.firstFail != 0 {
      i := StampHasCause(timeout, before, c);
      UnansweredExtends(timeout, before, call, i, c);
    } else {
      i := |before|;
    }
  }

  lemma {:induction false} CauseKeepsStamp(timeout: nat, calls: seq<Call>, i: nat, c: Conn)
    requires Clocked(calls) && Unanswered(timeout, calls, i, c) && Replay(timeout, calls).sh.conn == Some(c)
    ensures var first := Replay(timeout, calls).sh.firstFail; 0 < first <= calls[i].now
  {
    var before, call := calls[..|calls| - 1], calls[|calls| - 1];
    assert calls[..|calls|] == calls && calls == before + [call];
    assert Quiet(timeout, calls, |calls| - 1);
    if i < |before| {
      assert before[..i] == calls[..i];
      forall k | i <= k < |before|
        ensures Quiet(timeout, before, k)
      {
        assert Quiet(timeout, calls, k);
        assert before[..k] == calls[..k] && before[..k + 1] == calls[..k + 1];
      }
      StaysCached(timeout, calls, i, c);
      CauseKeepsStamp(timeout, before, i, c);
    } else {
      StampNotLater(timeout, before, c, call.now);
    }
  }

  lemma {:induction false} StampNotLater(timeout: nat, calls: seq<Call>, c: Conn, now: nat)
    requires Clocked(calls + [Fail(c, false, now)])
    ensures Replay(timeout, calls).sh.firstFail <= now
  {
    if calls != [] {
      var before, call := calls[..|calls| - 1], calls[|calls| - 1];
      var all := calls + [Fail(c, false, now)];
      assert all[|calls| - 1] == call && all[|calls|].now == now;
      assert forall k | 0 <= k < |before| :: (before + [Fail(c, false, now)])[k] == all[k];
      StampNotLater(timeout, before, c, now);
    }
  }

  // A cached connection that is not torn down was already cached one call earlier,
  // because a fresh dial takes a new number.
  lemma StaysCached(timeout: nat, calls: seq<Call>, i: nat, c: Conn)
    requires i < |calls| - 1 && Unanswered(timeout, calls, i, c) && Replay(timeout, calls).sh.conn == Some(c)
    ensures Replay(timeout, calls[..|calls| - 1]).sh.conn == Some(c)
  {
    NumbersAreFresh(timeout, calls, i);
  }

  lemma {:induction false} NumbersAreFresh(timeout: nat, calls: seq<Call>, i: nat)
    requires i < |calls|
    ensures Replay(timeout, calls[..i]).sh.conn.Some?
            ==> Replay(timeout, calls[..i]).sh.conn.value < Replay(timeout, calls[..|calls| - 1]).next
  {
    var before := calls[..|calls| - 1];
    if i == |calls| - 1 {
      CachedIsOld(timeout, before);
    } else {
      assert before[..i] == calls[..i];
      NumbersAreFresh(timeout, before, i);
    }
  }

  lemma CachedIsOld(timeout: nat, calls: seq<Call>)
    ensures var p := Replay(timeout, calls); p.sh.conn.Some? ==> p.sh.conn.value < p.next
  {
  }

  ghost predicate LongUnanswered(timeout: nat, calls: seq<Call>, c: Conn, now: nat) {
    exists i: nat :: Unanswered(timeout, calls, i, c) && calls[i].now + 2 * timeout <= now
  }

  lemma StampTellsLongUnanswered(timeout: nat, calls: seq<Call>, c: Conn, now: nat)
    requires Clocked(calls) && Replay(timeout, calls).sh.conn == Some(c)
    ensures var first := Replay(timeout, calls).sh.firstFail;
            LongUnanswered(timeout, calls, c, now) <==> first != 0 && first + 2 * timeout <= now
  {
    var first := Replay(timeout, calls).sh.firstFail;
    if first != 0 && first + 2 * timeout <= now {
      var i := StampHasCause(timeout, calls, c);
    }
    if LongUnanswered(timeout, calls, c, now) {
      var i: nat :| Unanswered(timeout, calls, i, c) && calls[i].now + 2 * timeout <= now;
      CauseKeepsStamp(timeout, calls, i, c);
    }
  }

  /** A failure tears the connection down if and only if its dial was not cancelled,
      it is on the cached connection, and an earlier failure of that connection, at
      least two connect timeouts old, is still unanswered. It then removes exactly that
      connection; otherwise it leaves the cache alone. */
  lemma WedgeTrips(timeout: nat, calls: seq<Call>, c: Conn, cancelled: bool, now: nat)
    requires Clocked(calls + [Fail(c, cancelled, now)])
    ensures var before := Replay(timeout, calls).sh;
            var after := Replay(timeout, calls + [Fail(c, cancelled, now)]).sh;
            var trip := !cancelled && before.conn == Some(c) && LongUnanswered(timeout, calls, c, now);
            && (trip ==> after == Shared(before.closed, None, before.reconnects + 1, 0))
            && (!trip ==> after.conn == before.conn && after.reconnects == before.reconnects)
            && (cancelled ==> after == before)
  {
    var all := calls + [Fail(c, cancelled, now)];
    assert all[..|calls|] == calls;
    assert Clocked(calls) by {
      assert forall k | 0 <= k < |calls| :: all[k] == calls[k];
    }
    if Replay(timeout, calls).sh.conn == Some(c) {
      StampTellsLongUnanswered(timeout, calls, c, now);
    }
  }

  // ---- The calls above, as uninterrupted runs of the interleaved model.

  function Alone(t: Tid, ch: Choice, n: nat): seq<Event> {
    seq(n, _ => Run(t, ch))
  }

  function Acts(w: World, t: Tid, pc: PC, ch: Choice, n: nat): (World, PC)
    decreases n
  {
    if n == 0 then (w, pc) else var (w', pc') := Act(w, t, pc, ch); Acts(w', t, pc', ch, n - 1)
  }

  lemma {:induction false} AloneIsActs(s: State, t: Tid, ch: Choice, n: nat)
    requires t in s.pcs
    ensures var (w, pc) := Acts(s.w, t, s.pcs[t], ch, n);
            RunAll(s, Alone(t, ch, n)) == State(w, s.pcs[t := pc])
    decreases n
  {
    if n == 0 {
      assert s.pcs == s.pcs[t := s.pcs[t]];
    } else {
      var s' := Step(s, Run(t, ch));
      AloneIsActs(s', t, ch, n - 1);
      assert [Run(t, ch)][..0] == [];
      assert RunAll(s, [Run(t, ch)]) == s';
      RunConcat(s, [Run(t, ch)], Alone(t, ch, n - 1));
      assert Alone(t, ch, n) == [Run(t, ch)] + Alone(t, ch, n - 1);
      var (w, pc) := Acts(s.w, t, s.pcs[t], ch, n);
      assert s.pcs[t := s'.pcs[t]][t := pc] == s.pcs[t := pc];
    }
  }

  lemma CloseConnActs(w: World, t: Tid, c: Conn, after: After, ch: Choice)
    ensures var n, sh' := if w.sh.conn == Some(c) then 4 else 1, TearDown(w.sh, Some(c));
            Acts(w, t, CloseCheck(c, after), ch, n)
            == (if w.sh.conn == Some(c)
                then w.(sh := sh', torn := w.torn + multiset{c}, gone := w.gone + {c})
                else w,
                Resume(after))
  {
    if w.sh.conn == Some(c) {
      var (w1, pc1) := Act(w, t, CloseCheck(c, after), ch);
      var (w2, pc2) := Act(w1, t, pc1, ch);
      var (w3, pc3) := Act(w2, t, pc2, ch);
      var (w4, pc4) := Act(w3, t, pc3, ch);
      assert pc1 == CloseClear(c, after) && pc2 == CloseCount(c, after) && pc3 == CloseFinish(c, after);
      assert Acts(w, t, CloseCheck(c, after), ch, 4) == Acts(w1, t, pc1, ch, 3) == Acts(w2, t, pc2, ch, 2)
          == Acts(w3, t, pc3, ch, 1) == Acts(w4, t, pc4, ch, 0);
    } else {
      assert Acts(w, t, CloseCheck(c, after), ch, 1) == Acts(w, t, Resume(after), ch, 0);
    }
  }

  /** closeConn, running alone, is TearDown, and it closes the connection it took. */
  lemma CloseConnAlone(s: State, t: Tid, ch: Choice)
    requires t in s.pcs && s.pcs[t].CloseCheck?
    ensures var c := s.pcs[t].c;
            exists n: nat :: var s' := RunAll(s, Alone(t, ch, n));
              && s'.w.sh == TearDown(s.w.sh, Some(c))
              && s'.pcs == s.pcs[t := Resume(s.pcs[t].after)]
              && s'.w.gone == s.w.gone + if s.w.sh.conn == Some(c) then {c} else {}
  {
    var n := if s.w.sh.conn == Some(s.pcs[t].c) then 4 else 1;
    AloneIsActs(s, t, ch, n);
    CloseConnActs(s.w, t, s.pcs[t].c, s.pcs[t].after, ch);
  }

  lemma ActsConcat(w: World, t: Tid, pc: PC, ch: Choice, m: nat, n: nat)
    ensures var (w', pc') := Acts(w, t, pc, ch, m); Acts(w, t, pc, ch, m + n) == Acts(w', t, pc', ch, n)
    decreases m
  {
    if m > 0 {
      var (w', pc') := Act(w, t, pc, ch);
      ActsConcat(w', t, pc', ch, m - 1, n);
    }
  }

  lemma NoteFailureActs(w: World, t: Tid, c: Conn, ch: Choice) returns (n: nat)
    ensures var (w', pc') := Acts(w, t, NoteCheck(c), ch, n);
            && w'.sh == NoteFailure(w.sh, w.timeout, c, false, ch.now) && pc' == Done
            && w'.next == w.next
            && w'.gone == w.gone + if w.sh.conn == Some(c) && w'.sh.conn == None then {c} else {}
  {
    var (w1, pc1) := Act(w, t, NoteCheck(c), ch);
    assert Acts(w, t, NoteCheck(c), ch, 1) == Acts(w1, t, pc1, ch, 0);
    if pc1 == Done {
      n := 1;
    } else {
      var (w2, pc2) := Act(w1, t, pc1, ch);
      var (w3, pc3) := Act(w2, t, pc2, ch);
      assert Acts(w, t, NoteCheck(c), ch, 3) == Acts(w1, t, pc1, ch, 2) == Acts(w2, t, pc2, ch, 1)
          == Acts(w3, t, pc3, ch, 0);
      if pc3 == Done {
        n := 3;
      } else {
        CloseConnActs(w, t, c, Return, ch);
        ActsConcat(w, t, NoteCheck(c), ch, 3, 4);
        n := 7;
      }
    }
  }

  /** noteConnFailure, running alone, is NoteFailure. */
  lemma NoteConnFailureAlone(s: State, t: Tid, ch: Choice)
    requires t in s.pcs && s.pcs[t].NoteCheck?
    ensures exists n: nat :: var s' := RunAll(s, Alone(t, ch, n));
              && s'.w.sh == NoteFailure(s.w.sh, s.w.timeout, s.pcs[t].c, false, ch.now)
              && s'.pcs == s.pcs[t := Done]
  {
    var n := NoteFailureActs(s.w, t, s.pcs[t].c, ch);
    AloneIsActs(s, t, ch, n);
  }

  // ---- What interleaving costs: with the accesses apart, one failure can trip.

  const SUCCEED := Choice(true, false, 1)
  const REFUSE := Choice(false, false, 1)
  const REFUSE_LATE := Choice(false, false, 100)

  function BeforeRebuild(): seq<Event> {
    [StartDial(0)] + Alone(0, SUCCEED, 7) + Alone(0, REFUSE, 3) + [StartDial(1)] + Alone(1, REFUSE, 6)
  }

  // Goroutine 0 finds connection 0 unanswering and is about to stamp the run of
  // failures; goroutine 1 tears 0 down, builds connection 1, and the stamp for 0
  // lands after the teardown cleared it.
  function LateStamp(): seq<Event> {
    BeforeRebuild() + Alone(1, SUCCEED, 7) + Alone(0, REFUSE, 1) + Alone(1, REFUSE_LATE, 3)
  }

  lemma {:induction false} RunPart(s: State, es: seq<Event>, t: Tid, ch: Choice, n: nat)
    requires t in RunAll(s, es).pcs
    ensures var mid := RunAll(s, es);
            var (w, pc) := Acts(mid.w, t, mid.pcs[t], ch, n);
            RunAll(s, es + Alone(t, ch, n)) == State(w, mid.pcs[t := pc])
  {
    RunConcat(s, es, Alone(t, ch, n));
    AloneIsActs(RunAll(s, es), t, ch, n);
  }

  lemma RunStart(s: State, es: seq<Event>, t: Tid)
    requires t !in RunAll(s, es).pcs
    ensures RunAll(s, es + [StartDial(t)]) == RunAll(s, es).(pcs := RunAll(s, es).pcs[t := DialFast(false)])
  {
    assert (es + [StartDial(t)])[..|es|] == es;
  }

  lemma BuildsActs(w: World, t: Tid, r: bool)
    requires !w.sh.closed && w.sh.conn == None && w.sem == None
    ensures Acts(w, t, DialFast(r), SUCCEED, 7)
            == (w.(sh := w.sh.(conn := Some(w.next)), next := w.next + 1, stored := w.stored + multiset{w.next}),
                Exchange(w.next))
  {
    var (w1, pc1) := Act(w, t, DialFast(r), SUCCEED);
    var (w2, pc2) := Act(w1, t, pc1, SUCCEED);
    var (w3, pc3) := Act(w2, t, pc2, SUCCEED);
    var (w4, pc4) := Act(w3, t, pc3, SUCCEED);
    var (w5, pc5) := Act(w4, t, pc4, SUCCEED);
    var (w6, pc6) := Act(w5, t, pc5, SUCCEED);
    assert pc4 == Storing(r, w.next) && pc5 == ReleaseOk(r, w.next) && pc6 == Opening(r, w.next);
    assert Acts(w, t, DialFast(r), SUCCEED, 7) == Acts(w2, t, pc2, SUCCEED, 5) == Acts(w4, t, pc4, SUCCEED, 3)
        == Acts(w6, t, pc6, SUCCEED, 1);
  }

  lemma Builds(s0: State, es: seq<Event>, t: Tid, r: bool)
    requires var s := RunAll(s0, es);
             && t in s.pcs && s.pcs[t] == DialFast(r) && !s.w.sh.closed && s.w.sh.conn == None && s.w.sem == None
    ensures var s := RunAll(s0, es);
            RunAll(s0, es + Alone(t, SUCCEED, 7))
            == State(s.w.(sh := s.w.sh.(conn := Some(s.w.next)), next := s.w.next + 1,
                          stored := s.w.stored + multiset{s.w.next}),
                     s.pcs[t := Exchange(s.w.next)])
  {
    RunPart(s0, es, t, SUCCEED, 7);
    BuildsActs(RunAll(s0, es).w, t, r);
  }

  lemma ReportsActs(w: World, t: Tid, c: Conn, ch: Choice)
    requires !ch.ok && !ch.cancelled && w.sh.conn == Some(c)
    ensures Acts(w, t, Exchange(c), ch, 3)
            == (w.(failed := w.failed + multiset{c}),
                if w.sh.firstFail == 0 then NoteStamp(c) else NoteDecide(c, w.sh.firstFail))
  {
    var (w1, pc1) := Act(w, t, Exchange(c), ch);
    var (w2, pc2) := Act(w1, t, pc1, ch);
    var (w3, pc3) := Act(w2, t, pc2, ch);
    assert Acts(w, t, Exchange(c), ch, 3) == Acts(w1, t, pc1, ch, 2) == Acts(w2, t, pc2, ch, 1)
        == Acts(w3, t, pc3, ch, 0);
  }

  lemma Reports(s0: State, es: seq<Event>, t: Tid, c: Conn, ch: Choice)
    requires var s := RunAll(s0, es);
             t in s.pcs && s.pcs[t] == Exchange(c) && !ch.ok && !ch.cancelled && s.w.sh.conn == Some(c)
    ensures var s := RunAll(s0, es);
            RunAll(s0, es + Alone(t, ch, 3))
            == State(s.w.(failed := s.w.failed + multiset{c}),
                     s.pcs[t := if s.w.sh.firstFail == 0 then NoteStamp(c) else NoteDecide(c, s.w.sh.firstFail)])
  {
    RunPart(s0, es, t, ch, 3);
    ReportsActs(RunAll(s0, es).w, t, c, ch);
  }

  lemma OpenFails(s0: State, es: seq<Event>, t: Tid, c: Conn)
    requires var s := RunAll(s0, es);
             t in s.pcs && s.pcs[t] == DialFast(false) && !s.w.sh.closed && s.w.sh.conn == Some(c)
    ensures var s := RunAll(s0, es);
            RunAll(s0, es + Alone(t, REFUSE, 6))
            == State(s.w.(sh := TearDown(s.w.sh, Some(c)), torn := s.w.torn + multiset{c}, gone := s.w.gone + {c}),
                     s.pcs[t := DialFast(true)])
  {
    RunPart(s0, es, t, REFUSE, 6);
    var w := RunAll(s0, es).w;
    var (w1, pc1) := Act(w, t, DialFast(false), REFUSE);
    var (w2, pc2) := Act(w1, t, pc1, REFUSE);
    assert pc2 == CloseCheck(c, Retry);
    assert Acts(w, t, DialFast(false), REFUSE, 6) == Acts(w1, t, pc1, REFUSE, 5) == Acts(w2, t, pc2, REFUSE, 4);
    CloseConnActs(w2, t, c, Retry, REFUSE);
  }

  lemma Stamps(s0: State, es: seq<Event>, t: Tid, c: Conn)
    requires var s := RunAll(s0, es); t in s.pcs && s.pcs[t] == NoteStamp(c)
    ensures var s := RunAll(s0, es);
            RunAll(s0, es + Alone(t, REFUSE, 1))
            == State(s.w.(sh := s.w.sh.(firstFail := 1)), s.pcs[t := Done])
  {
    RunPart(s0, es, t, REFUSE, 1);
    var w := RunAll(s0, es).w;
    assert Acts(w, t, NoteStamp(c), REFUSE, 1) == Acts(w.(sh := w.sh.(firstFail := 1)), t, Done, REFUSE, 0);
  }

  lemma Trips(s0: State, es: seq<Event>, t: Tid, c: Conn)
    requires var s := RunAll(s0, es);
             t in s.pcs && s.pcs[t] == NoteDecide(c, 1) && s.w.timeout == 1 && s.w.sh.conn == Some(c)
    ensures var s := RunAll(s0, es);
            RunAll(s0, es + Alone(t, REFUSE_LATE, 2))
            == State(s.w.(sh := TakeStale(s.w.sh, Some(c)), torn := s.w.torn + multiset{c}),
                     s.pcs[t := CloseClear(c, Return)])
  {
    RunPart(s0, es, t, REFUSE_LATE, 2);
    var w := RunAll(s0, es).w;
    var (w1, pc1) := Act(w, t, NoteDecide(c, 1), REFUSE_LATE);
    var (w2, pc2) := Act(w1, t, pc1, REFUSE_LATE);
    assert Acts(w, t, NoteDecide(c, 1), REFUSE_LATE, 2) == Acts(w1, t, pc1, REFUSE_LATE, 1)
        == Acts(w2, t, pc2, REFUSE_LATE, 0);
  }

  lemma ConnectionZeroTornDown()
    ensures RunAll(Init(1), BeforeRebuild())
            == State(World(1, Shared(false, None, 1, 0), None, 1, {0},
                           multiset{0}, multiset{0}, multiset{}, multiset{0}),
                     map[0 := NoteStamp(0), 1 := DialFast(true)])
  {
    var i := Init(1);
    var e1 := [StartDial(0)];
    RunStart(i, [], 0);
    assert [] + e1 == e1;
    Builds(i, e1, 0, false);
    var e2 := e1 + Alone(0, SUCCEED, 7);
    Reports(i, e2, 0, 0, REFUSE);
    var e3 := e2 + Alone(0, REFUSE, 3);
    RunStart(i, e3, 1);
    var e4 := e3 + [StartDial(1)];
    OpenFails(i, e4, 1, 0);
  }

  /** Unlike the whole calls, the interleaved steps can tear down a connection on the
      first failure ever reported on it: connection 1 has one recorded failure, yet
      the stamp in force is connection 0's, and goroutine 1 closes connection 1. */
  lemma FirstFailureCanTrip()
    ensures var s, s' := RunAll(Init(1), LateStamp()), RunAll(Init(1), LateStamp() + Alone(1, REFUSE_LATE, 2));
            && s.w.sh.conn == Some(1) && s.w.failed[1] == 1 && s.w.torn[1] == 0
            && 1 in s.pcs && s.pcs[1] == NoteDecide(1, 1)
            && s'.w.sh.conn == None && s'.w.torn[1] == 1
  {
    var i, e5 := Init(1), BeforeRebuild();
    ConnectionZeroTornDown();
    Builds(i, e5, 1, true);
    var e6 := e5 + Alone(1, SUCCEED, 7);
    Stamps(i, e6, 0, 0);
    var e7 := e6 + Alone(0, REFUSE, 1);
    Reports(i, e7, 1, 1, REFUSE_LATE);
    Trips(i, LateStamp(), 1, 1);
  }
}
