/**
  When a first failure can tear a connection down (api/l4proxy.go), with the accesses of
  noteConnFailure and closeConn apart: the exact condition, seen when the connection is
  stored, and what a trip still tells about the failures before it.
 */
module L4Stamps {
  import opened Options
  import opened L4Shared
  import opened L4Interleaving
  import opened L4Wedge

  function At(timeout: nat, es: seq<Event>, i: nat): State
    requires i <= |es|
  {
    RunAll(Init(timeout), es[..i])
  }

  predicate Steps(s: State, e: Event) {
    e.Run? && e.t in s.pcs
  }

  predicate IsStore(s: State, e: Event, c: Conn) {
    Steps(s, e) && s.pcs[e.t].Storing? && s.pcs[e.t].c == c && !s.w.sh.closed
  }

  // A failure of `c` stamps the start of a run of failures.
  predicate IsStamp(s: State, e: Event, c: Conn, now: nat) {
    Steps(s, e) && s.pcs[e.t] == NoteStamp(c) && e.ch.now == now
  }

  // An answer, or the second half of a teardown, ends the run of failures.
  predicate IsClear(s: State, e: Event) {
    Steps(s, e) && ((s.pcs[e.t].Exchange? && e.ch.ok) || s.pcs[e.t].CloseClear?)
  }

  // Goroutine `t` reads the stamp it will decide by.
  predicate IsLoad(s: State, e: Event, t: Tid, c: Conn, first: nat) {
    Steps(s, e) && e.t == t && s.pcs[t] == NoteLoad(c) && s.w.sh.firstFail == first
  }

  /** No run of failures is in force and none is about to be stamped. */
  predicate Clean(s: State) {
    s.w.sh.firstFail == 0 && forall t | t in s.pcs :: !s.pcs[t].NoteLoad? && !s.pcs[t].NoteStamp?
  }

  predicate ClearAt(timeout: nat, es: seq<Event>, k: nat)
    requires k < |es|
  {
    IsClear(At(timeout, es, k), es[k])
  }

  // Event `i` stamped `first` for `c`, and nothing ended that run before event `j`.
  predicate Stands(timeout: nat, es: seq<Event>, i: nat, j: nat, c: Conn, first: nat) {
    && i < j <= |es| && IsStamp(At(timeout, es, i), es[i], c, first)
    && forall k: nat | i < k < j :: !ClearAt(timeout, es, k)
  }

  predicate LoadAt(timeout: nat, es: seq<Event>, j: nat, t: Tid, c: Conn, first: nat) {
    j < |es| && IsLoad(At(timeout, es, j), es[j], t, c, first)
  }

  ghost predicate Standing(timeout: nat, es: seq<Event>, c: Conn, first: nat) {
    exists i: nat :: Stands(timeout, es, i, |es|, c, first)
  }

  /** What goroutine `t` decides by: an earlier failure of the same connection stamped
      `first`, and neither an answer nor a teardown ended that run before `t` read it. */
  ghost predicate Backed(timeout: nat, es: seq<Event>, t: Tid, c: Conn, first: nat) {
    exists i: nat, j: nat :: LoadAt(timeout, es, j, t, c, first) && Stands(timeout, es, i, j, c, first)
  }

  // What holds of every run in which the store of `c` was clean.
  ghost predicate CleanSince(timeout: nat, es: seq<Event>, c: Conn) {
    var s := RunAll(Init(timeout), es);
    && s.w.stored[c] >= 1
    && (s.w.sh.conn == Some(c) ==>
          && (forall t | t in s.pcs && (s.pcs[t].NoteLoad? || s.pcs[t].NoteStamp?) :: s.pcs[t].c == c)
          && (s.w.sh.firstFail != 0 ==> Standing(timeout, es, c, s.w.sh.firstFail))
          && (forall t | t in s.pcs && s.pcs[t].NoteDecide? && s.pcs[t].c == c ::
                Backed(timeout, es, t, c, s.pcs[t].first)))
  }

  lemma PrefixAt(timeout: nat, es: seq<Event>, e: Event, i: nat)
    requires i <= |es|
    ensures At(timeout, es + [e], i) == At(timeout, es, i)
  {
    assert (es + [e])[..i] == es[..i];
  }

  lemma LastAt(timeout: nat, es: seq<Event>, e: Event)
    ensures At(timeout, es + [e], |es|) == RunAll(Init(timeout), es)
    ensures RunAll(Init(timeout), es + [e]) == Step(RunAll(Init(timeout), es), e)
  {
    assert (es + [e])[..|es|] == es;
    RunOneMore(Init(timeout), es, e);
  }

  lemma StandsExtends(timeout: nat, es: seq<Event>, e: Event, i: nat, j: nat, c: Conn, first: nat)
    requires Stands(timeout, es, i, j, c, first)
    ensures Stands(timeout, es + [e], i, j, c, first)
  {
    PrefixAt(timeout, es, e, i);
    forall k: nat | i < k < j
      ensures !ClearAt(timeout, es + [e], k)
    {
      PrefixAt(timeout, es, e, k);
      assert !ClearAt(timeout, es, k);
    }
  }

  lemma StandingExtends(timeout: nat, es: seq<Event>, e: Event, c: Conn, first: nat)
    requires Standing(timeout, es, c, first) && !IsClear(RunAll(Init(timeout), es), e)
    ensures Standing(timeout, es + [e], c, first)
  {
    var i: nat :| Stands(timeout, es, i, |es|, c, first);
    StandsExtends(timeout, es, e, i, |es|, c, first);
    LastAt(timeout, es, e);
    assert !ClearAt(timeout, es + [e], |es|);
    forall k: nat | i < k < |es + [e]|
      ensures !ClearAt(timeout, es + [e], k)
    {
    }
    assert Stands(timeout, es + [e], i, |es + [e]|, c, first);
  }

  lemma StampStands(timeout: nat, es: seq<Event>, e: Event, c: Conn, first: nat)
    requires IsStamp(RunAll(Init(timeout), es), e, c, first)
    ensures Standing(timeout, es + [e], c, first)
  {
    LastAt(timeout, es, e);
    assert Stands(timeout, es + [e], |es|, |es + [e]|, c, first);
  }

  lemma BackedExtends(timeout: nat, es: seq<Event>, e: Event, t: Tid, c: Conn, first: nat)
    requires Backed(timeout, es, t, c, first)
    ensures Backed(timeout, es + [e], t, c, first)
  {
    var i: nat, j: nat :| LoadAt(timeout, es, j, t, c, first) && Stands(timeout, es, i, j, c, first);
    StandsExtends(timeout, es, e, i, j, c, first);
    PrefixAt(timeout, es, e, j);
    assert LoadAt(timeout, es + [e], j, t, c, first);
  }

  lemma LoadBacks(timeout: nat, es: seq<Event>, e: Event, c: Conn, first: nat)
    requires Standing(timeout, es, c, first) && e.Run? && IsLoad(RunAll(Init(timeout), es), e, e.t, c, first)
    ensures Backed(timeout, es + [e], e.t, c, first)
  {
    var i: nat :| Stands(timeout, es, i, |es|, c, first);
    StandsExtends(timeout, es, e, i, |es|, c, first);
    LastAt(timeout, es, e);
    assert LoadAt(timeout, es + [e], |es|, e.t, c, first);
  }

  // What one step does to the stamp, and how a goroutine comes to load and decide.
  lemma ActOnStamp(w: World, t: Tid, pc: PC, ch: Choice)
    ensures var w' := Act(w, t, pc, ch).0;
            && w'.sh.firstFail
               == (if pc.NoteStamp? then ch.now
                   else if (pc.Exchange? && ch.ok) || pc.CloseClear? then 0 else w.sh.firstFail)
            && (w'.sh.conn.Some? && w'.sh.conn != w.sh.conn ==> pc.Storing? && w'.sh.conn == Some(pc.c))
            && w.stored <= w'.stored
  {
  }

  lemma ActOnNotes(w: World, t: Tid, pc: PC, ch: Choice)
    ensures var pc' := Act(w, t, pc, ch).1;
            && (pc'.NoteLoad? ==> w.sh.conn == Some(pc'.c))
            && (pc'.NoteStamp? ==> pc == NoteLoad(pc'.c))
            && (pc'.NoteDecide? ==> pc == NoteLoad(pc'.c) && pc'.first == w.sh.firstFail != 0)
  {
  }

  lemma StoreStep(s: State, e: Event, c: Conn)
    requires Inv(s) && IsStore(s, e, c) && Clean(s)
    ensures var s' := Step(s, e);
            && s'.w.stored[c] >= 1 && s'.w.sh.firstFail == 0
            && forall t | t in s'.pcs ::
                 !s'.pcs[t].NoteLoad? && !s'.pcs[t].NoteStamp? && !(s'.pcs[t].NoteDecide? && s'.pcs[t].c == c)
  {
    assert s.w.stored[c] == 0;
    forall t | t in s.pcs && s.pcs[t].NoteDecide?
      ensures s.pcs[t].c != c
    {
      assert RefersTo(s.pcs[t]) == Some(s.pcs[t].c);
    }
  }

  lemma StoreIsCleanSince(timeout: nat, es: seq<Event>, e: Event, c: Conn)
    requires IsStore(RunAll(Init(timeout), es), e, c) && Clean(RunAll(Init(timeout), es))
    ensures CleanSince(timeout, es + [e], c)
  {
    RunKeepsInv(timeout, es);
    StoreStep(RunAll(Init(timeout), es), e, c);
    RunOneMore(Init(timeout), es, e);
  }

  lemma StaysCurrent(timeout: nat, es: seq<Event>, e: Event, c: Conn)
    requires RunAll(Init(timeout), es).w.stored[c] >= 1 && RunAll(Init(timeout), es + [e]).w.sh.conn == Some(c)
    ensures RunAll(Init(timeout), es).w.sh.conn == Some(c)
  {
    LastAt(timeout, es, e);
    RunKeepsInv(timeout, es);
    var s := RunAll(Init(timeout), es);
    if Steps(s, e) {
      ActOnStamp(s.w, e.t, s.pcs[e.t], e.ch);
    }
  }

  lemma StepKeepsStanding(timeout: nat, es: seq<Event>, e: Event, c: Conn)
    requires CleanSince(timeout, es, c) && RunAll(Init(timeout), es).w.sh.conn == Some(c)
    ensures var first := RunAll(Init(timeout), es + [e]).w.sh.firstFail;
            first != 0 ==> Standing(timeout, es + [e], c, first)
  {
    LastAt(timeout, es, e);
    var s := RunAll(Init(timeout), es);
    var first := Step(s, e).w.sh.firstFail;
    if Steps(s, e) {
      ActOnStamp(s.w, e.t, s.pcs[e.t], e.ch);
      if s.pcs[e.t].NoteStamp? {
        StampStands(timeout, es, e, c, first);
      } else if first != 0 {
        StandingExtends(timeout, es, e, c, first);
      }
    } else if first != 0 {
      StandingExtends(timeout, es, e, c, first);
    }
  }

  lemma StepKeepsBacked(timeout: nat, es: seq<Event>, e: Event, c: Conn, t: Tid)
    requires CleanSince(timeout, es, c) && RunAll(Init(timeout), es).w.sh.conn == Some(c)
    requires var s' := RunAll(Init(timeout), es + [e]); t in s'.pcs && s'.pcs[t].NoteDecide? && s'.pcs[t].c == c
    ensures Backed(timeout, es + [e], t, c, RunAll(Init(timeout), es + [e]).pcs[t].first)
  {
    LastAt(timeout, es, e);
    var s := RunAll(Init(timeout), es);
    if Steps(s, e) && e.t == t {
      ActOnNotes(s.w, t, s.pcs[t], e.ch);
      LoadBacks(timeout, es, e, c, s.w.sh.firstFail);
    } else {
      BackedExtends(timeout, es, e, t, c, s.pcs[t].first);
    }
  }

  lemma StepKeepsCleanSince(timeout: nat, es: seq<Event>, e: Event, c: Conn)
    requires CleanSince(timeout, es, c)
    ensures CleanSince(timeout, es + [e], c)
  {
    LastAt(timeout, es, e);
    var s, s' := RunAll(Init(timeout), es), RunAll(Init(timeout), es + [e]);
    if Steps(s, e) {
      ActOnStamp(s.w, e.t, s.pcs[e.t], e.ch);
      ActOnNotes(s.w, e.t, s.pcs[e.t], e.ch);
    }
    if s'.w.sh.conn == Some(c) {
      StaysCurrent(timeout, es, e, c);
      StepKeepsStanding(timeout, es, e, c);
      forall t | t in s'.pcs && s'.pcs[t].NoteDecide? && s'.pcs[t].c == c
        ensures Backed(timeout, es + [e], t, c, s'.pcs[t].first)
      {
        StepKeepsBacked(timeout, es, e, c, t);
      }
    }
  }

  lemma {:induction false} RunKeepsCleanSince(timeout: nat, es: seq<Event>, more: seq<Event>, c: Conn)
    requires CleanSince(timeout, es, c)
    ensures CleanSince(timeout, es + more, c)
    decreases |more|
  {
    if more == [] {
      assert es + more == es;
    } else {
      var before := es + more[..|more| - 1];
      RunKeepsCleanSince(timeout, es, more[..|more| - 1], c);
      StepKeepsCleanSince(timeout, before, more[|more| - 1], c);
      assert before + [more[|more| - 1]] == es + more;
    }
  }

  // ---- Every trip has an older failure behind it: the ones that reported are counted.

  predicate IsReporting(pc: PC, c: Conn) {
    (pc.NoteCheck? || pc.NoteLoad? || pc.NoteStamp? || pc.NoteDecide?) && pc.c == c
  }

  function Reporters(pcs: map<Tid, PC>, c: Conn): set<Tid> {
    set t | t in pcs && IsReporting(pcs[t], c)
  }

  // Recorded failures of `c` whose goroutine has finished reporting.
  function Reported(s: State, c: Conn): int {
    s.w.failed[c] - |Reporters(s.pcs, c)|
  }

  lemma ReportersAfter(pcs: map<Tid, PC>, t: Tid, pc: PC, c: Conn)
    ensures Reporters(pcs[t := pc], c)
            == if IsReporting(pc, c) then Reporters(pcs, c) + {t} else Reporters(pcs, c) - {t}
    ensures t in Reporters(pcs, c) <==> t in pcs && IsReporting(pcs[t], c)
  {
  }

  lemma ActRecords(w: World, t: Tid, pc: PC, ch: Choice)
    ensures var (w', pc') := Act(w, t, pc, ch);
            w'.failed == if pc.Exchange? && pc' == NoteCheck(pc.c) then w.failed + multiset{pc.c} else w.failed
  {
  }

  lemma ActOnReport(w: World, t: Tid, pc: PC, ch: Choice, c: Conn)
    ensures var pc' := Act(w, t, pc, ch).1;
            && (IsReporting(pc', c) && !IsReporting(pc, c) ==> pc == Exchange(c) && pc' == NoteCheck(c))
            && (pc == NoteStamp(c) ==> !IsReporting(pc', c))
  {
  }

  lemma RunCountsReports(s: State, t: Tid, ch: Choice, c: Conn)
    requires t in s.pcs
    ensures Reported(Step(s, Run(t, ch)), c) >= Reported(s, c) + if s.pcs[t] == NoteStamp(c) then 1 else 0
  {
    ReportersAfter(s.pcs, t, Act(s.w, t, s.pcs[t], ch).1, c);
    ActRecords(s.w, t, s.pcs[t], ch);
    ActOnReport(s.w, t, s.pcs[t], ch, c);
  }

  lemma StepCountsReports(s: State, e: Event, c: Conn)
    ensures Reported(Step(s, e), c) >= Reported(s, c) + if Steps(s, e) && s.pcs[e.t] == NoteStamp(c) then 1 else 0
  {
    match e
    case StartDial(t) => if t !in s.pcs { ReportersAfter(s.pcs, t, DialFast(false), c); }
    case StartClose(t) => if t !in s.pcs { ReportersAfter(s.pcs, t, Shutdown, c); }
    case Run(t, ch) => if t in s.pcs { RunCountsReports(s, t, ch, c); }
  }

  lemma {:induction false} ReportsCounted(timeout: nat, es: seq<Event>, c: Conn, n: nat)
    requires n <= |es|
    ensures Reported(RunAll(Init(timeout), es), c) >= Reported(At(timeout, es, n), c) >= 0
    ensures n < |es| && Steps(At(timeout, es, n), es[n]) && At(timeout, es, n).pcs[es[n].t] == NoteStamp(c)
            ==> Reported(RunAll(Init(timeout), es), c) >= 1
    decreases |es|
  {
    if es == [] {
      assert Reporters(map[], c) == {};
    } else {
      var before, e := es[..|es| - 1], es[|es| - 1];
      assert before + [e] == es;
      StepCountsReports(RunAll(Init(timeout), before), e, c);
      if n < |es| {
        ReportsCounted(timeout, before, c, n);
        PrefixAt(timeout, before, e, n);
        assert before[..|before|] == before;
      } else {
        ReportsCounted(timeout, before, c, 0);
        assert es[..n] == es;
      }
    }
  }

  /** After a clean store, for as long as the connection is cached: whoever decides on one
      of its failures decides by an earlier failure of that same connection, still
      unanswered when it was read, so by then at least two have been recorded. */
  lemma CleanStoreBacksEveryTrip(timeout: nat, es: seq<Event>, e: Event, c: Conn, more: seq<Event>, t: Tid)
    requires IsStore(RunAll(Init(timeout), es), e, c) && Clean(RunAll(Init(timeout), es))
    requires var s := RunAll(Init(timeout), es + [e] + more);
             t in s.pcs && s.pcs[t].NoteDecide? && s.pcs[t].c == c && s.w.sh.conn == Some(c)
    ensures var s := RunAll(Init(timeout), es + [e] + more);
            Backed(timeout, es + [e] + more, t, c, s.pcs[t].first) && s.w.failed[c] >= 2
  {
    var all := es + [e] + more;
    var s := RunAll(Init(timeout), all);
    StoreIsCleanSince(timeout, es, e, c);
    RunKeepsCleanSince(timeout, es + [e], more, c);
    var i: nat, j: nat :|
      LoadAt(timeout, all, j, t, c, s.pcs[t].first) && Stands(timeout, all, i, j, c, s.pcs[t].first);
    ReportsCounted(timeout, all, c, i);
    ReportersAfter(s.pcs, t, s.pcs[t], c);
    assert t in Reporters(s.pcs, c);
    assert |Reporters(s.pcs, c)| >= 1;
  }

  // ---- From every unclean store some continuation trips on the first failure.

  /** Goroutine `t`, deciding on the only failure of `c` reported so far, tears `c` down. */
  predicate FirstTrip(s: State, t: Tid, ch: Choice, c: Conn) {
    && t in s.pcs && s.pcs[t].NoteDecide? && s.pcs[t].c == c && s.w.sh.conn == Some(c)
    && s.w.failed[c] == 1 && s.w.torn[c] == 0
    && RunAll(s, Alone(t, ch, 2)).w.torn[c] == 1
  }

  lemma ActOnLedger(w: World, t: Tid, pc: PC, ch: Choice, c: Conn)
    ensures var w' := Act(w, t, pc, ch).0;
            w.stored[c] <= w'.stored[c] && (w'.failed[c] > w.failed[c] ==> pc == Exchange(c))
  {
  }

  lemma {:induction false} FailedWereStored(timeout: nat, es: seq<Event>, c: Conn)
    ensures var w := RunAll(Init(timeout), es).w; w.failed[c] > 0 ==> w.stored[c] > 0
  {
    if es != [] {
      var before, e := es[..|es| - 1], es[|es| - 1];
      FailedWereStored(timeout, before, c);
      RunKeepsInv(timeout, before);
      var s := RunAll(Init(timeout), before);
      if Steps(s, e) {
        ActOnLedger(s.w, e.t, s.pcs[e.t], e.ch, c);
      }
    }
  }

  // The times of a continuation: none before `clock`, none before an earlier one.
  predicate Timely(more: seq<Event>, clock: nat) {
    forall i | 0 <= i < |more| && more[i].Run? ::
      clock <= more[i].ch.now && forall j | 0 <= j < i && more[j].Run? :: more[j].ch.now <= more[i].ch.now
  }

  lemma StampActs(w: World, u: Tid, d: Conn, pc: PC, ch: Choice) returns (n: nat)
    requires (pc == NoteStamp(d) || pc == NoteLoad(d)) && w.sh.firstFail == 0 && ch.now > 0
    ensures Acts(w, u, pc, ch, n) == (w.(sh := w.sh.(firstFail := ch.now)), Done)
  {
    var (w1, pc1) := Act(w, u, pc, ch);
    if pc == NoteStamp(d) {
      n := 1;
      assert Acts(w, u, pc, ch, 1) == Acts(w1, u, pc1, ch, 0);
    } else {
      n := 2;
      var (w2, pc2) := Act(w1, u, pc1, ch);
      assert Acts(w, u, pc, ch, 2) == Acts(w1, u, pc1, ch, 1) == Acts(w2, u, pc2, ch, 0);
    }
  }

  lemma FailActs(w: World, t: Tid, r: bool, c: Conn, ok: Choice, fail: Choice)
    requires ok.ok && !fail.ok && !fail.cancelled && w.sh.conn == Some(c) && w.sh.firstFail != 0
    ensures Acts(w, t, ReleaseOk(r, c), ok, 2) == (w.(sem := None), Exchange(c))
    ensures Acts(w.(sem := None), t, Exchange(c), fail, 3)
            == (w.(sem := None, failed := w.failed + multiset{c}), NoteDecide(c, w.sh.firstFail))
  {
    var (w1, pc1) := Act(w, t, ReleaseOk(r, c), ok);
    var (w2, pc2) := Act(w1, t, pc1, ok);
    assert Acts(w, t, ReleaseOk(r, c), ok, 2) == Acts(w1, t, pc1, ok, 1) == Acts(w2, t, pc2, ok, 0);
    ReportsActs(w2, t, c, fail);
  }

  lemma TripActs(w: World, t: Tid, c: Conn, first: nat, ch: Choice)
    requires w.sh.conn == Some(c) && ch.now - first >= 2 * w.timeout
    ensures var w' := Acts(w, t, NoteDecide(c, first), ch, 2).0;
            w'.torn == w.torn + multiset{c} && w'.sh.firstFail == w.sh.firstFail
  {
    var (w1, pc1) := Act(w, t, NoteDecide(c, first), ch);
    var (w2, pc2) := Act(w1, t, pc1, ch);
    assert Acts(w, t, NoteDecide(c, first), ch, 2) == Acts(w1, t, pc1, ch, 1) == Acts(w2, t, pc2, ch, 0);
  }

  lemma BuilderFails(s: State, t: Tid, r: bool, c: Conn, ok: Choice, fail: Choice)
    requires t in s.pcs && s.pcs[t] == ReleaseOk(r, c) && s.w.sh.conn == Some(c) && s.w.sh.firstFail != 0
    requires ok.ok && !fail.ok && !fail.cancelled
    ensures RunAll(s, Alone(t, ok, 2) + Alone(t, fail, 3))
            == State(s.w.(sem := None, failed := s.w.failed + multiset{c}),
                     s.pcs[t := NoteDecide(c, s.w.sh.firstFail)])
  {
    FailActs(s.w, t, r, c, ok, fail);
    AloneIsActs(s, t, ok, 2);
    RunPart(s, Alone(t, ok, 2), t, fail, 3);
  }

  // With a stamp in force, the builder of `c` fails once and trips.
  lemma BuilderTrips(s: State, t: Tid, r: bool, c: Conn, clock: nat) returns (more: seq<Event>, ch: Choice)
    requires t in s.pcs && s.pcs[t] == ReleaseOk(r, c) && s.w.sh.conn == Some(c) && s.w.sh.firstFail != 0
    requires s.w.failed[c] == 0 && s.w.torn[c] == 0
    ensures FirstTrip(RunAll(s, more), t, ch, c) && Timely(more + [Run(t, ch)], clock)
  {
    var first := s.w.sh.firstFail;
    var late := clock + first + 2 * s.w.timeout;
    var ok := Choice(true, false, late);
    ch := Choice(false, false, late);
    more := Alone(t, ok, 2) + Alone(t, ch, 3);
    BuilderFails(s, t, r, c, ok, ch);
    var s2 := RunAll(s, more);
    TripActs(s2.w, t, c, first, ch);
    AloneIsActs(s2, t, ch, 2);
  }

  // Somebody on its way to a stamp puts one in force.
  lemma LateStampArrives(s: State, u: Tid, clock: nat) returns (more: seq<Event>, ch: Choice)
    requires u in s.pcs && (s.pcs[u].NoteLoad? || s.pcs[u].NoteStamp?) && s.w.sh.firstFail == 0
    ensures RunAll(s, more) == State(s.w.(sh := s.w.sh.(firstFail := clock + 1)), s.pcs[u := Done])
    ensures forall i | 0 <= i < |more| :: more[i].Run? && more[i].ch.now == clock + 1
  {
    ch := Choice(true, false, clock + 1);
    var n := StampActs(s.w, u, s.pcs[u].c, s.pcs[u], ch);
    AloneIsActs(s, u, ch, n);
    more := Alone(u, ch, n);
  }

  // Right after its store a connection has no history of its own.
  lemma FreshStore(timeout: nat, es: seq<Event>, e: Event, c: Conn)
    requires IsStore(RunAll(Init(timeout), es), e, c)
    ensures var s, s' := RunAll(Init(timeout), es), RunAll(Init(timeout), es + [e]);
            && s'.pcs == s.pcs[e.t := ReleaseOk(s.pcs[e.t].retry, c)]
            && s'.w.sh.conn == Some(c) && s'.w.sh.firstFail == s.w.sh.firstFail
            && s'.w.failed[c] == 0 && s'.w.torn[c] == 0
  {
    RunKeepsInv(timeout, es);
    FailedWereStored(timeout, es, c);
    RunOneMore(Init(timeout), es, e);
    SettledByTheBooks(RunAll(Init(timeout), es).w, c);
  }

  /** The converse, whatever the clock shows by then: from every store that is not clean
      some continuation tears the new connection down on its first failure. */
  lemma UncleanStoreCanTrip(timeout: nat, es: seq<Event>, e: Event, c: Conn, clock: nat)
    returns (more: seq<Event>, ch: Choice)
    requires IsStore(RunAll(Init(timeout), es), e, c) && !Clean(RunAll(Init(timeout), es))
    ensures FirstTrip(RunAll(Init(timeout), es + [e] + more), e.t, ch, c) && Timely(more + [Run(e.t, ch)], clock)
  {
    FreshStore(timeout, es, e, c);
    var s, s1 := RunAll(Init(timeout), es), RunAll(Init(timeout), es + [e]);
    var r := s1.pcs[e.t].retry;
    if s.w.sh.firstFail != 0 {
      more, ch := BuilderTrips(s1, e.t, r, c, clock);
      RunConcat(Init(timeout), es + [e], more);
    } else {
      var u :| u in s.pcs && (s.pcs[u].NoteLoad? || s.pcs[u].NoteStamp?);
      var stamp, _ := LateStampArrives(s1, u, clock);
      var s2 := RunAll(s1, stamp);
      var rest;
      rest, ch := BuilderTrips(s2, e.t, r, c, clock + 1);
      more := stamp + rest;
      RunConcat(s1, stamp, rest);
      RunConcat(Init(timeout), es + [e], more);
      TimelyConcat(stamp, rest + [Run(e.t, ch)], clock);
      assert more + [Run(e.t, ch)] == stamp + (rest + [Run(e.t, ch)]);
    }
  }

  lemma TimelyConcat(a: seq<Event>, b: seq<Event>, clock: nat)
    requires forall i | 0 <= i < |a| :: a[i].Run? && a[i].ch.now == clock + 1
    requires Timely(b, clock + 1)
    ensures Timely(a + b, clock)
  {
  }

  predicate TripsAfter(timeout: nat, es: seq<Event>, more: seq<Event>, t: Tid, ch: Choice, c: Conn) {
    FirstTrip(RunAll(Init(timeout), es + more), t, ch, c)
  }

  /** The exact condition: a connection can be torn down on its first failure if and only
      if, when it was stored, a stamp was in force or somebody was on its way to set one. */
  lemma FirstFailureTripsIff(timeout: nat, es: seq<Event>, e: Event, c: Conn)
    requires IsStore(RunAll(Init(timeout), es), e, c)
    ensures (exists more, t, ch :: TripsAfter(timeout, es + [e], more, t, ch, c))
            <==> !Clean(RunAll(Init(timeout), es))
  {
    if Clean(RunAll(Init(timeout), es)) {
      forall more, t, ch | TripsAfter(timeout, es + [e], more, t, ch, c)
        ensures false
      {
        CleanStoreBacksEveryTrip(timeout, es, e, c, more, t);
      }
    } else {
      var more, ch := UncleanStoreCanTrip(timeout, es, e, c, 0);
      assert TripsAfter(timeout, es + [e], more, e.t, ch, c);
    }
  }

  /** What an answer costs that comes between a goroutine's load and its decision: it is
      not seen. Whatever the state, the decision stands and the connection is torn down. */
  lemma AnswerAfterLoadIgnored(s: State, t: Tid, ch: Choice, u: Tid, answer: Choice)
    requires t in s.pcs && s.pcs[t].NoteDecide? && s.w.sh.conn == Some(s.pcs[t].c)
    requires ch.now - s.pcs[t].first >= 2 * s.w.timeout
    requires u in s.pcs && u != t && s.pcs[u].Exchange? && answer.ok
    ensures var s' := RunAll(s, [Run(u, answer)] + Alone(t, ch, 2));
            s'.w.sh.firstFail == 0 && s'.w.torn == s.w.torn + multiset{s.pcs[t].c}
  {
    var s1, pc := Step(s, Run(u, answer)), s.pcs[t];
    assert s1.w == s.w.(sh := Answered(s.w.sh)) && s1.pcs[t] == pc;
    RunOneMore(s, [], Run(u, answer));
    assert [] + [Run(u, answer)] == [Run(u, answer)];
    RunConcat(s, [Run(u, answer)], Alone(t, ch, 2));
    AloneIsActs(s1, t, ch, 2);
    TripActs(s1.w, t, pc.c, pc.first, ch);
  }
}
