/**
  What a dial does to the shared connection (api/l4proxy.go): nothing once its caller has
  cancelled, otherwise what its own failure gives it cause to do, and it always ends.
  Last, each whole call of the wedge detector is a run of the interleaved steps.
 */
module L4Causes {
  import opened Options
  import opened L4Shared
  import opened L4Interleaving
  import opened L4Wedge
  import opened L4Stamps

  // ---- A caller that gives up.

  // The step in which goroutine `t` sees that its caller has cancelled.
  predicate GivesUp(s: State, t: Tid, ch: Choice) {
    && t in s.pcs && ch.cancelled
    && (s.pcs[t].DialWait? || ((s.pcs[t].Opening? || s.pcs[t].Exchange?) && !ch.ok))
  }

  lemma {:induction false} DoneStaysDone(s: State, es: seq<Event>, t: Tid)
    requires t in s.pcs && s.pcs[t] == Done
    ensures var s' := RunAll(s, es); t in s'.pcs && s'.pcs[t] == Done
  {
    if es != [] {
      DoneStaysDone(s, es[..|es| - 1], t);
    }
  }

  /** A dial whose caller cancelled leaves everything as it was, in that step and in every
      later one, whatever the others do: no teardown, no recorded failure, no stamp. */
  lemma CancelledDialDoesNothing(s: State, t: Tid, ch: Choice, more: seq<Event>, later: Choice)
    requires GivesUp(s, t, ch)
    ensures Step(s, Run(t, ch)).w == s.w
    ensures var s' := RunAll(Step(s, Run(t, ch)), more); Step(s', Run(t, later)).w == s'.w
  {
    DoneStaysDone(Step(s, Run(t, ch)), more, t);
  }

  // ---- Causes.

  predicate OpenFails(s: State, e: Event, t: Tid, c: Conn) {
    && Steps(s, e) && e.t == t && s.pcs[t].Opening? && s.pcs[t].c == c
    && !e.ch.ok && !e.ch.cancelled
  }

  predicate ConnectFails(s: State, e: Event, t: Tid, c: Conn) {
    Steps(s, e) && e.t == t && s.pcs[t] == Exchange(c) && !e.ch.ok && !e.ch.cancelled
  }

  predicate OpenFailsAt(timeout: nat, es: seq<Event>, k: nat, t: Tid, c: Conn) {
    k < |es| && OpenFails(At(timeout, es, k), es[k], t, c)
  }

  predicate ConnectFailsAt(timeout: nat, es: seq<Event>, k: nat, t: Tid, c: Conn) {
    k < |es| && ConnectFails(At(timeout, es, k), es[k], t, c)
  }

  ghost predicate OpenFailed(timeout: nat, es: seq<Event>, t: Tid, c: Conn) {
    exists k: nat :: OpenFailsAt(timeout, es, k, t, c)
  }

  ghost predicate ConnectFailed(timeout: nat, es: seq<Event>, t: Tid, c: Conn) {
    exists k: nat :: ConnectFailsAt(timeout, es, k, t, c)
  }

  // What must have happened to goroutine `t` for it to stand at `pc`.
  ghost predicate Caused(timeout: nat, es: seq<Event>, t: Tid, pc: PC) {
    && (pc.NoteCheck? || pc.NoteLoad? || pc.NoteStamp? || pc.NoteDecide? ==>
          ConnectFailed(timeout, es, t, pc.c))
    && (pc.CloseCheck? ==>
          OpenFailed(timeout, es, t, pc.c) || (pc.after == Return && ConnectFailed(timeout, es, t, pc.c)))
  }

  lemma FailureStays(timeout: nat, es: seq<Event>, e: Event, t: Tid, c: Conn)
    ensures OpenFailed(timeout, es, t, c) ==> OpenFailed(timeout, es + [e], t, c)
    ensures ConnectFailed(timeout, es, t, c) ==> ConnectFailed(timeout, es + [e], t, c)
  {
    if OpenFailed(timeout, es, t, c) {
      var k: nat :| OpenFailsAt(timeout, es, k, t, c);
      PrefixAt(timeout, es, e, k);
      assert OpenFailsAt(timeout, es + [e], k, t, c);
    }
    if ConnectFailed(timeout, es, t, c) {
      var k: nat :| ConnectFailsAt(timeout, es, k, t, c);
      PrefixAt(timeout, es, e, k);
      assert ConnectFailsAt(timeout, es + [e], k, t, c);
    }
  }

  lemma FailureArrives(timeout: nat, es: seq<Event>, e: Event, t: Tid, c: Conn)
    ensures OpenFails(RunAll(Init(timeout), es), e, t, c) ==> OpenFailed(timeout, es + [e], t, c)
    ensures ConnectFails(RunAll(Init(timeout), es), e, t, c) ==> ConnectFailed(timeout, es + [e], t, c)
  {
    LastAt(timeout, es, e);
    if OpenFails(RunAll(Init(timeout), es), e, t, c) {
      assert OpenFailsAt(timeout, es + [e], |es|, t, c);
    }
    if ConnectFails(RunAll(Init(timeout), es), e, t, c) {
      assert ConnectFailsAt(timeout, es + [e], |es|, t, c);
    }
  }

  // Where a goroutine comes from that reports a failure or is about to tear down.
  lemma ActToReport(w: World, t: Tid, pc: PC, ch: Choice)
    ensures var pc' := Act(w, t, pc, ch).1;
            && (IsReporter(pc') ==>
                  (IsReporter(pc) && pc'.c == pc.c)
                  || (pc == Exchange(pc'.c) && !ch.ok && !ch.cancelled))
            && (pc'.CloseCheck? ==>
                  (pc.Opening? && pc.c == pc'.c && !ch.ok && !ch.cancelled)
                  || (pc.NoteDecide? && pc.c == pc'.c && pc'.after == Return))
  {
  }

  predicate IsReporter(pc: PC) {
    pc.NoteCheck? || pc.NoteLoad? || pc.NoteStamp? || pc.NoteDecide?
  }

  lemma StepKeepsCaused(timeout: nat, es: seq<Event>, e: Event, t: Tid)
    requires var s := RunAll(Init(timeout), es); t in s.pcs ==> Caused(timeout, es, t, s.pcs[t])
    requires t in Step(RunAll(Init(timeout), es), e).pcs
    ensures Caused(timeout, es + [e], t, Step(RunAll(Init(timeout), es), e).pcs[t])
  {
    var s := RunAll(Init(timeout), es);
    var pc' := Step(s, e).pcs[t];
    if pc'.CloseCheck? || IsReporter(pc') {
      FailureStays(timeout, es, e, t, pc'.c);
      FailureArrives(timeout, es, e, t, pc'.c);
      if Steps(s, e) && e.t == t {
        ActToReport(s.w, t, s.pcs[t], e.ch);
      }
    }
  }

  lemma {:induction false} ReportsHaveCauses(timeout: nat, es: seq<Event>, t: Tid)
    requires t in RunAll(Init(timeout), es).pcs
    ensures Caused(timeout, es, t, RunAll(Init(timeout), es).pcs[t])
  {
    if es != [] {
      var before, e := es[..|es| - 1], es[|es| - 1];
      assert before + [e] == es;
      if t in RunAll(Init(timeout), before).pcs {
        ReportsHaveCauses(timeout, before, t);
      }
      StepKeepsCaused(timeout, before, e, t);
    }
  }

  lemma ActTears(w: World, t: Tid, pc: PC, ch: Choice)
    ensures var w' := Act(w, t, pc, ch).0;
            w'.torn != w.torn ==>
              pc.CloseCheck? && w.sh.conn == Some(pc.c) && w'.torn == w.torn + multiset{pc.c}
  {
  }

  /** Whoever tears a connection down has itself seen it fail before, uncancelled: no stream
      could be opened on it, or it left a CONNECT unanswered. */
  lemma TeardownHasCause(timeout: nat, es: seq<Event>, e: Event)
    requires RunAll(Init(timeout), es + [e]).w.torn != RunAll(Init(timeout), es).w.torn
    ensures var w, w' := RunAll(Init(timeout), es).w, RunAll(Init(timeout), es + [e]).w;
            && e.Run? && w.sh.conn.Some? && w'.torn == w.torn + multiset{w.sh.conn.value}
            && (OpenFailed(timeout, es, e.t, w.sh.conn.value) || ConnectFailed(timeout, es, e.t, w.sh.conn.value))
  {
    var s := RunAll(Init(timeout), es);
    RunOneMore(Init(timeout), es, e);
    ActTears(s.w, e.t, s.pcs[e.t], e.ch);
    ReportsHaveCauses(timeout, es, e.t);
  }

  function ConnectFailures(timeout: nat, es: seq<Event>, c: Conn): nat {
    if es == [] then 0
    else
      var before, e := es[..|es| - 1], es[|es| - 1];
      ConnectFailures(timeout, before, c)
      + if e.Run? && ConnectFails(RunAll(Init(timeout), before), e, e.t, c) then 1 else 0
  }

  /** A failed CONNECT counts as unanswered, once, if its caller is still waiting, and not
      otherwise. */
  lemma {:induction false} EachConnectFailureIsNoted(timeout: nat, es: seq<Event>, c: Conn)
    ensures RunAll(Init(timeout), es).w.failed[c] == ConnectFailures(timeout, es, c)
  {
    if es != [] {
      var before, e := es[..|es| - 1], es[|es| - 1];
      EachConnectFailureIsNoted(timeout, before, c);
      var s := RunAll(Init(timeout), before);
      if Steps(s, e) {
        ActNotes(s.w, e.t, s.pcs[e.t], e.ch);
      }
    }
  }

  lemma ActNotes(w: World, t: Tid, pc: PC, ch: Choice)
    ensures Act(w, t, pc, ch).0.failed
            == w.failed + if pc.Exchange? && !ch.ok && !ch.cancelled then multiset{pc.c} else multiset{}
  {
  }

  // ---- One retry.

  function OpenFailures(timeout: nat, es: seq<Event>, t: Tid): nat {
    if es == [] then 0
    else
      var before, e := es[..|es| - 1], es[|es| - 1];
      var s := RunAll(Init(timeout), before);
      OpenFailures(timeout, before, t)
      + if Steps(s, e) && s.pcs[e.t].Opening? && OpenFails(s, e, t, s.pcs[e.t].c) then 1 else 0
  }

  // How many of its stream opens have failed, as a goroutine's position tells it.
  function MayFail(pc: PC): (r: (nat, nat)) {
    match pc
    case DialFast(r) => Exactly(r)
    case DialWait(r) => Exactly(r)
    case DialRecheck(r) => Exactly(r)
    case Building(r) => Exactly(r)
    case Storing(r, _) => Exactly(r)
    case ReleaseOk(r, _) => Exactly(r)
    case Opening(r, _) => Exactly(r)
    case CloseCheck(_, after) => if after == Retry then (1, 1) else (0, 2)
    case CloseClear(_, after) => if after == Retry then (1, 1) else (0, 2)
    case CloseCount(_, after) => if after == Retry then (1, 1) else (0, 2)
    case CloseFinish(_, after) => if after == Retry then (1, 1) else (0, 2)
    case _ => (0, 2)
  }

  function Exactly(retry: bool): (nat, nat) {
    if retry then (1, 1) else (0, 0)
  }

  predicate Within(n: nat, bounds: (nat, nat)) {
    bounds.0 <= n <= bounds.1
  }

  lemma ActKeepsCount(w: World, t: Tid, pc: PC, ch: Choice, n: nat)
    requires Within(n, MayFail(pc))
    ensures Within(n + if pc.Opening? && !ch.ok && !ch.cancelled then 1 else 0, MayFail(Act(w, t, pc, ch).1))
  {
  }

  /** A dial opens again only after its first open failed, and never a third time. */
  lemma {:induction false} RetriesOnce(timeout: nat, es: seq<Event>, t: Tid)
    ensures var s, n := RunAll(Init(timeout), es), OpenFailures(timeout, es, t);
            && n <= 2 && (t !in s.pcs ==> n == 0)
            && (t in s.pcs ==> Within(n, MayFail(s.pcs[t])))
            && (t in s.pcs && s.pcs[t].Opening? ==> n == if s.pcs[t].retry then 1 else 0)
  {
    if es != [] {
      var before, e := es[..|es| - 1], es[|es| - 1];
      RetriesOnce(timeout, before, t);
      var s := RunAll(Init(timeout), before);
      if Steps(s, e) && e.t == t {
        ActKeepsCount(s.w, t, s.pcs[t], e.ch, OpenFailures(timeout, before, t));
      }
    }
  }

  // ---- Every call ends, and Close stops the building.

  // A bound on the steps a goroutine still takes.
  function Rank(pc: PC): nat {
    match pc
    case Opening(r, _) => OfTry(r, 10)
    case ReleaseOk(r, _) => OfTry(r, 11)
    case Storing(r, _) => OfTry(r, 12)
    case Building(r) => OfTry(r, 13)
    case DialRecheck(r) => OfTry(r, 14)
    case DialWait(r) => OfTry(r, 15)
    case DialFast(r) => OfTry(r, 16)
    case Exchange(_) => 9
    case NoteCheck(_) => 8
    case NoteLoad(_) => 7
    case NoteDecide(_, _) => 6
    case NoteStamp(_) => 1
    case CloseCheck(_, after) => OfClose(after, 5)
    case CloseClear(_, after) => OfClose(after, 4)
    case CloseCount(_, after) => OfClose(after, 3)
    case CloseFinish(_, after) => OfClose(after, 2)
    case Discarding(_) => 2
    case ReleaseErr => 1
    case Shutdown => 2
    case ShutdownClose(_) => 1
    case Done => 0
  }

  function OfTry(retry: bool, n: nat): nat {
    if retry then n else n + 20
  }

  function OfClose(after: After, n: nat): nat {
    if after == Retry then n + 16 else n
  }

  predicate CanStep(s: State, t: Tid) {
    t in s.pcs && s.pcs[t] != Done && (s.pcs[t].DialWait? ==> s.w.sem == None)
  }

  lemma StepsAdvance(w: World, t: Tid, pc: PC, ch: Choice)
    requires pc != Done && (pc.DialWait? ==> w.sem == None || ch.cancelled)
    ensures Rank(Act(w, t, pc, ch).1) < Rank(pc)
  {
  }

  /** No run gets stuck: while a call is unfinished some goroutine can step, and each such
      step, whatever the answer, brings it nearer its end. */
  lemma NeverStuck(timeout: nat, es: seq<Event>, t: Tid) returns (u: Tid)
    requires var s := RunAll(Init(timeout), es); t in s.pcs && s.pcs[t] != Done
    ensures var s := RunAll(Init(timeout), es);
            && CanStep(s, u)
            && forall ch :: Rank(Step(s, Run(u, ch)).pcs[u]) < Rank(s.pcs[u])
  {
    var s := RunAll(Init(timeout), es);
    RunKeepsInv(timeout, es);
    u := if s.pcs[t].DialWait? && s.w.sem.Some? then s.w.sem.value else t;
    forall ch
      ensures Rank(Step(s, Run(u, ch)).pcs[u]) < Rank(s.pcs[u])
    {
      StepsAdvance(s.w, u, s.pcs[u], ch);
    }
  }

  lemma {:induction false} ClosedForGood(s: State, es: seq<Event>)
    requires s.w.sh.closed
    ensures RunAll(s, es).w.sh.closed
  {
    if es != [] {
      ClosedForGood(s, es[..|es| - 1]);
    }
  }

  /** Once Close has run, only dials already under way go on building. */
  lemma {:induction false} NoBuildAfterClose(s: State, es: seq<Event>, t: Tid)
    requires s.w.sh.closed && !(t in s.pcs && s.pcs[t].Building?)
    ensures var s' := RunAll(s, es); !(t in s'.pcs && s'.pcs[t].Building?)
  {
    if es != [] {
      NoBuildAfterClose(s, es[..|es| - 1], t);
      ClosedForGood(s, es[..|es| - 1]);
    }
  }

  // ---- The whole calls.

  // Goroutine `t`, answered by `ch` alone from here on, performs `call`.
  predicate Performs(s: State, t: Tid, ch: Choice, call: Call) {
    && t in s.pcs
    && match call
       case Dial => s.pcs[t].DialFast? && ch.ok && !ch.cancelled && (Lookup(s.w.sh) == Absent ==> s.w.sem == None)
       case OpenFail(c) => s.pcs[t].Opening? && s.pcs[t].c == c && !ch.ok && !ch.cancelled
       case Fail(c, cancelled, now) => s.pcs[t] == Exchange(c) && ch == Choice(false, cancelled, now)
       case Answer => s.pcs[t].Exchange? && ch.ok
       case CloseCall => s.pcs[t] == Shutdown
  }

  // Where the call leaves its goroutine.
  function Outcome(w: World, pc: PC, call: Call): PC
    requires (call.Dial? ==> pc.DialFast?) && (call.OpenFail? ==> pc.Opening?)
  {
    match call
    case Dial =>
      (match Lookup(w.sh)
       case ProxyClosed => Done
       case Cached(c) => Opening(pc.retry, c)
       case Absent => Opening(pc.retry, w.next))
    case OpenFail(_) => if pc.retry then Done else DialFast(true)
    case _ => Done
  }

  /** What `call` does to the shared state, to the connections and to its own goroutine. */
  predicate Matches(w: World, pc: PC, call: Call, done: (World, PC))
    requires (call.Dial? ==> pc.DialFast?) && (call.OpenFail? ==> pc.Opening?)
  {
    && Proxy(done.0.sh, done.0.next) == Apply(w.timeout, Proxy(w.sh, w.next), call)
    && done.0.gone == w.gone + (if w.sh.conn.Some? && done.0.sh.conn == None then {w.sh.conn.value} else {})
    && done.1 == Outcome(w, pc, call)
  }

  lemma DialActs(w: World, t: Tid, r: bool, ch: Choice) returns (n: nat)
    requires ch.ok && !ch.cancelled && (Lookup(w.sh) == Absent ==> w.sem == None)
    ensures Matches(w, DialFast(r), Dial, Acts(w, t, DialFast(r), ch, n))
  {
    var (w1, pc1) := Act(w, t, DialFast(r), ch);
    if Lookup(w.sh) != Absent {
      n := 1;
      assert Acts(w, t, DialFast(r), ch, 1) == Acts(w1, t, pc1, ch, 0);
    } else {
      n := 6;
      var (w2, pc2) := Act(w1, t, pc1, ch);
      var (w3, pc3) := Act(w2, t, pc2, ch);
      var (w4, pc4) := Act(w3, t, pc3, ch);
      var (w5, pc5) := Act(w4, t, pc4, ch);
      assert pc4 == Storing(r, w.next) && pc5 == ReleaseOk(r, w.next);
      var (w6, pc6) := Act(w5, t, pc5, ch);
      assert Acts(w, t, DialFast(r), ch, 6) == Acts(w2, t, pc2, ch, 4) == Acts(w4, t, pc4, ch, 2)
          == Acts(w6, t, pc6, ch, 0);
    }
  }

  lemma OpenFailActs(w: World, t: Tid, r: bool, c: Conn, ch: Choice) returns (n: nat)
    requires !ch.ok && !ch.cancelled
    ensures Matches(w, Opening(r, c), OpenFail(c), Acts(w, t, Opening(r, c), ch, n))
  {
    var after := if r then Return else Retry;
    var m: nat := if w.sh.conn == Some(c) then 4 else 1;
    n := m + 1;
    assert Act(w, t, Opening(r, c), ch) == (w, CloseCheck(c, after));
    assert Acts(w, t, Opening(r, c), ch, n) == Acts(w, t, CloseCheck(c, after), ch, m);
    CloseConnActs(w, t, c, after, ch);
  }

  lemma FailureActs(w: World, t: Tid, c: Conn, ch: Choice) returns (n: nat)
    requires !ch.ok
    ensures Matches(w, Exchange(c), Fail(c, ch.cancelled, ch.now), Acts(w, t, Exchange(c), ch, n))
  {
    var (w1, pc1) := Act(w, t, Exchange(c), ch);
    if ch.cancelled {
      n := 1;
      assert Acts(w, t, Exchange(c), ch, 1) == Acts(w1, t, pc1, ch, 0);
    } else {
      var m := NoteFailureActs(w1, t, c, ch);
      n := m + 1;
      assert Acts(w, t, Exchange(c), ch, n) == Acts(w1, t, NoteCheck(c), ch, m);
    }
  }

  lemma AnswerActs(w: World, t: Tid, c: Conn, ch: Choice)
    requires ch.ok
    ensures Matches(w, Exchange(c), Answer, Acts(w, t, Exchange(c), ch, 1))
  {
    assert Acts(w, t, Exchange(c), ch, 1) == Acts(w.(sh := Answered(w.sh)), t, Done, ch, 0);
  }

  lemma CloseActs(w: World, t: Tid, ch: Choice) returns (n: nat)
    ensures Matches(w, Shutdown, CloseCall, Acts(w, t, Shutdown, ch, n))
  {
    n := if w.sh.conn.Some? then 2 else 1;
    var (w1, pc1) := Act(w, t, Shutdown, ch);
    var (w2, pc2) := Act(w1, t, pc1, ch);
    assert Acts(w, t, Shutdown, ch, 1) == Acts(w1, t, pc1, ch, 0);
    assert Acts(w, t, Shutdown, ch, 2) == Acts(w1, t, pc1, ch, 1) == Acts(w2, t, pc2, ch, 0);
  }

  /** Every call of the wedge detector, running alone, is what Apply says it is; it closes
      the connection it removes from the cache, and leaves its goroutine where it must go on. */
  lemma CallAlone(s: State, t: Tid, ch: Choice, call: Call) returns (n: nat)
    requires Performs(s, t, ch, call)
    ensures var s' := RunAll(s, Alone(t, ch, n));
            t in s'.pcs && s'.pcs == s.pcs[t := s'.pcs[t]] && Matches(s.w, s.pcs[t], call, (s'.w, s'.pcs[t]))
  {
    match call {
      case Dial => n := DialActs(s.w, t, s.pcs[t].retry, ch);
      case OpenFail(c) => n := OpenFailActs(s.w, t, s.pcs[t].retry, c, ch);
      case Fail(c, _, _) => n := FailureActs(s.w, t, c, ch);
      case Answer =>
        n := 1;
        AnswerActs(s.w, t, s.pcs[t].c, ch);
      case CloseCall => n := CloseActs(s.w, t, ch);
    }
    AloneIsActs(s, t, ch, n);
  }
}
