/**
  What handleForwarding returns (api/forwarding_supervisor.go): the first error reported for
  its session, or nothing but its context's end; and a reported error always reaches it.
 */
module ForwardHandlers {
  import opened Options
  import opened ForwardSessions

  /** A handler that returns an error returns the first one reported for its session. */
  lemma HandlerReturnsFirstError(es: seq<Event>, t: Tid)
    requires var s := RunAll(Init(), es); t in s.pcs && s.pcs[t].Returned? && s.pcs[t].got.Some?
    ensures var s := RunAll(Init(), es);
            s.pcs[t].id in s.w.sessions && s.w.sessions[s.pcs[t].id].first == s.pcs[t].got
  {
    RunKeepsInv(es);
    var s := RunAll(Init(), es);
    assert ThreadOk(s.w, t, s.pcs[t]) && SessionOk(s.w.sessions[s.pcs[t].id]);
  }

  // ---- The error waits for the one handler of its session.

  // The session whose error channel this goroutine will still read.
  function WillRead(pc: PC): Option<Id> {
    match pc
    case Swapping(id) => Some(id)
    case ClosingPrev(id, _) => Some(id)
    case Waiting(id) => Some(id)
    case _ => None
  }

  predicate Unread(s: Session) {
    s.put != [] ==> s.chan.Some?
  }

  ghost predicate ReaderOk(w: World, pcs: map<Tid, PC>, t: Tid, id: Id) {
    && id in w.sessions && Unread(w.sessions[id])
    && forall u | u in pcs && u != t :: WillRead(pcs[u]) != Some(id)
  }

  ghost predicate ReadersOk(w: World, pcs: map<Tid, PC>) {
    forall t | t in pcs && WillRead(pcs[t]).Some? :: ReaderOk(w, pcs, t, WillRead(pcs[t]).value)
  }

  lemma ActReads(w: World, t: Tid, pc: PC, takesCtx: bool)
    requires Names(w, pc) && WillRead(Act(w, t, pc, takesCtx).1).Some?
    ensures var (w', pc') := Act(w, t, pc, takesCtx);
            if pc.Attaching? then WillRead(pc') == Some(w.next) && w'.sessions[w.next].put == []
            else WillRead(pc') == WillRead(pc)
  {
  }

  lemma ActLeavesUnread(w: World, t: Tid, pc: PC, takesCtx: bool, id: Id)
    requires WorldOk(w) && Names(w, pc) && ThreadOk(w, t, pc) && id in w.sessions && Unread(w.sessions[id])
    requires pc != Waiting(id) || Act(w, t, pc, takesCtx).1 == pc
    ensures var w' := Act(w, t, pc, takesCtx).0; id in w'.sessions && Unread(w'.sessions[id])
  {
    assert SessionOk(w.sessions[id]);
  }

  lemma ActKeepsReader(s: State, t: Tid, takesCtx: bool)
    requires Inv(s) && ReadersOk(s.w, s.pcs) && t in s.pcs
    requires WillRead(Act(s.w, t, s.pcs[t], takesCtx).1).Some?
    ensures var (w, pc) := Act(s.w, t, s.pcs[t], takesCtx); ReaderOk(w, s.pcs[t := pc], t, WillRead(pc).value)
  {
    var pc' := Act(s.w, t, s.pcs[t], takesCtx).1;
    ActReads(s.w, t, s.pcs[t], takesCtx);
    if s.pcs[t].Attaching? {
      forall u | u in s.pcs && u != t
        ensures WillRead(s.pcs[u]) != Some(s.w.next)
      {
        assert Names(s.w, s.pcs[u]);
      }
    } else {
      assert ReaderOk(s.w, s.pcs, t, WillRead(s.pcs[t]).value);
      ActLeavesUnread(s.w, t, s.pcs[t], takesCtx, WillRead(pc').value);
    }
  }

  lemma ActKeepsOtherReader(s: State, t: Tid, takesCtx: bool, u: Tid)
    requires Inv(s) && ReadersOk(s.w, s.pcs) && t in s.pcs && u in s.pcs && u != t && WillRead(s.pcs[u]).Some?
    ensures var (w, pc) := Act(s.w, t, s.pcs[t], takesCtx);
            ReaderOk(w, s.pcs[t := pc], u, WillRead(s.pcs[u]).value)
  {
    var id, pc' := WillRead(s.pcs[u]).value, Act(s.w, t, s.pcs[t], takesCtx).1;
    assert ReaderOk(s.w, s.pcs, u, id) && WillRead(s.pcs[t]) != Some(id);
    ActLeavesUnread(s.w, t, s.pcs[t], takesCtx, id);
    if WillRead(pc').Some? {
      ActReads(s.w, t, s.pcs[t], takesCtx);
    }
  }

  lemma ArrivalKeepsReaders(s: State, t: Tid, pc: PC)
    requires ReadersOk(s.w, s.pcs) && t !in s.pcs && WillRead(pc) == None
    ensures ReadersOk(s.w, s.pcs[t := pc])
  {
    var pcs := s.pcs[t := pc];
    forall u | u in pcs && WillRead(pcs[u]).Some?
      ensures ReaderOk(s.w, pcs, u, WillRead(pcs[u]).value)
    {
      assert ReaderOk(s.w, s.pcs, u, WillRead(s.pcs[u]).value);
    }
  }

  lemma RunStepKeepsReaders(s: State, t: Tid, takesCtx: bool)
    requires Inv(s) && ReadersOk(s.w, s.pcs) && t in s.pcs
    ensures var (w, pc) := Act(s.w, t, s.pcs[t], takesCtx); ReadersOk(w, s.pcs[t := pc])
  {
    var (w, pc) := Act(s.w, t, s.pcs[t], takesCtx);
    var pcs := s.pcs[t := pc];
    forall u | u in pcs && WillRead(pcs[u]).Some?
      ensures ReaderOk(w, pcs, u, WillRead(pcs[u]).value)
    {
      if u == t {
        ActKeepsReader(s, t, takesCtx);
      } else {
        ActKeepsOtherReader(s, t, takesCtx, u);
      }
    }
  }

  lemma {:induction false} RunKeepsReaders(es: seq<Event>)
    ensures var s := RunAll(Init(), es); ReadersOk(s.w, s.pcs)
  {
    if es != [] {
      var s := RunAll(Init(), es[..|es| - 1]);
      RunKeepsReaders(es[..|es| - 1]);
      RunKeepsInv(es[..|es| - 1]);
      match es[|es| - 1] {
        case Handle(t) => if t !in s.pcs { ArrivalKeepsReaders(s, t, Attaching); }
        case Report(t, id, err) => if t !in s.pcs { ArrivalKeepsReaders(s, t, Reporting(id, err)); }
        case Close(t) => if t !in s.pcs { ArrivalKeepsReaders(s, t, Shutting); }
        case Run(t, takesCtx) => if t in s.pcs { RunStepKeepsReaders(s, t, takesCtx); }
      }
    }
  }

  /** Once a report on its session has returned, a handler that is still waiting finds the
      first error there, and its next step leaves the wait, with that error unless its own
      context is done. */
  lemma ReportWakesHandler(es: seq<Event>, t: Tid, u: Tid, takesCtx: bool)
    requires var s := RunAll(Init(), es);
             && t in s.pcs && s.pcs[t].Waiting? && u in s.pcs && s.pcs[u].Reported?
             && s.pcs[u].id == s.pcs[t].id
    ensures var s := RunAll(Init(), es);
            var id := s.pcs[t].id;
            && id in s.w.sessions
            && Step(s, Run(t, takesCtx)).pcs[t]
               == Detaching(id, if takesCtx then None else s.w.sessions[id].first)
  {
    RunKeepsInv(es);
    RunKeepsReaders(es);
    var s := RunAll(Init(), es);
    assert ThreadOk(s.w, u, s.pcs[u]) && ReaderOk(s.w, s.pcs, t, s.pcs[t].id);
    assert SessionOk(s.w.sessions[s.pcs[t].id]);
  }

  // ---- Without an error only the end of its context ends the wait.

  predicate EndsByCtx(s: State, e: Event, t: Tid) {
    e == Run(t, true) && t in s.pcs && s.pcs[t].Waiting?
  }

  predicate EndedByCtxAt(es: seq<Event>, i: nat, t: Tid) {
    i < |es| && EndsByCtx(RunAll(Init(), es[..i]), es[i], t)
  }

  predicate LeavesEmptyHanded(pc: PC) {
    (pc.Detaching? || pc.Closing? || pc.Returned?) && pc.got == None
  }

  lemma ActLeaves(w: World, t: Tid, pc: PC, takesCtx: bool)
    requires Names(w, pc) && LeavesEmptyHanded(Act(w, t, pc, takesCtx).1)
    ensures LeavesEmptyHanded(pc) || (pc.Waiting? && takesCtx)
  {
  }

  /** A handler that returns without an error was told so by its context. */
  lemma {:induction false} EmptyHandedByCtx(es: seq<Event>, t: Tid) returns (i: nat)
    requires var s := RunAll(Init(), es); t in s.pcs && LeavesEmptyHanded(s.pcs[t])
    ensures EndedByCtxAt(es, i, t)
  {
    var before, e := es[..|es| - 1], es[|es| - 1];
    var s := RunAll(Init(), before);
    RunKeepsInv(before);
    if e.Run? && e.t == t && t in s.pcs {
      ActLeaves(s.w, t, s.pcs[t], e.takesCtx);
    }
    if EndsByCtx(s, e, t) {
      i := |before|;
    } else {
      i := EmptyHandedByCtx(before, t);
      assert es[..i] == before[..i] && es[i] == before[i];
    }
  }

  // ---- No report and no handler hangs.

  /** A report that is the first on its session, and runs alone, sends its error and closes
      the session. */
  lemma FirstReportAlone(es: seq<Event>, t: Tid, b: bool)
    requires var s := RunAll(Init(), es);
             t in s.pcs && s.pcs[t].Reporting? && s.pcs[t].id in s.w.sessions
             && s.w.sessions[s.pcs[t].id].once == Fresh
    ensures var s := RunAll(Init(), es);
            var id, err := s.pcs[t].id, s.pcs[t].err;
            Step(Step(Step(s, Run(t, b)), Run(t, b)), Run(t, b))
            == State(With(s.w, id, Session(true, Fired, Some(err), [err], Some(err))), s.pcs[t := Reported(id)])
  {
    RunKeepsInv(es);
    var s := RunAll(Init(), es);
    var id, err := s.pcs[t].id, s.pcs[t].err;
    assert SessionOk(s.w.sessions[id]);
    ReportSteps(s.w, t, id, err, b);
    var w1 := Act(s.w, t, Reporting(id, err), b).0;
    var w2 := Act(w1, t, Sending(id, err), b).0;
    assert Step(s, Run(t, b)) == State(w1, s.pcs[t := Sending(id, err)]);
    assert Step(Step(s, Run(t, b)), Run(t, b)) == State(w2, s.pcs[t := ReportClosing(id)]) by {
      assert s.pcs[t := Sending(id, err)][t := ReportClosing(id)] == s.pcs[t := ReportClosing(id)];
    }
    assert s.pcs[t := ReportClosing(id)][t := Reported(id)] == s.pcs[t := Reported(id)];
  }

  function With(w: World, id: Id, session: Session): World {
    w.(sessions := w.sessions[id := session])
  }

  lemma WithTwice(w: World, id: Id, a: Session, b: Session)
    ensures With(With(w, id, a), id, b) == With(w, id, b)
  {
    assert w.sessions[id := a][id := b] == w.sessions[id := b];
  }

  lemma ReportSteps(w: World, t: Tid, id: Id, err: Err, b: bool)
    requires id in w.sessions && SessionOk(w.sessions[id]) && w.sessions[id].once == Fresh
    ensures var (w1, pc1) := Act(w, t, Reporting(id, err), b);
            pc1 == Sending(id, err) && id in w1.sessions
            && var (w2, pc2) := Act(w1, t, pc1, b);
               pc2 == ReportClosing(id) && id in w2.sessions
               && Act(w2, t, pc2, b)
                  == (With(w, id, Session(true, Fired, Some(err), [err], Some(err))), Reported(id))
  {
    assert w.sessions[id].put + [err] == [err];
    var s1 := Session(w.sessions[id].closed, Inside(t), Some(err), [], None);
    var s2 := s1.(put := [err], chan := Some(err));
    WithTwice(w, id, s1, s2);
    WithTwice(w, id, s2, Session(true, Fired, Some(err), [err], Some(err)));
    assert Act(w, t, Reporting(id, err), b).0 == With(w, id, s1);
    assert Act(With(w, id, s1), t, Sending(id, err), b).0 == With(w, id, s2);
  }

  // Whoever has entered errOnce of a session is still inside it.
  predicate InsideOf(pc: PC, id: Id) {
    (pc.Sending? || pc.ReportClosing?) && pc.id == id
  }

  ghost predicate EnteredOk(w: World, pcs: map<Tid, PC>, id: Id)
    requires id in w.sessions
  {
    var once := w.sessions[id].once;
    once.Inside? ==> once.t in pcs && InsideOf(pcs[once.t], id)
  }

  lemma ActEnters(w: World, t: Tid, pc: PC, takesCtx: bool, id: Id)
    requires Names(w, pc) && id in Act(w, t, pc, takesCtx).0.sessions
    ensures var (w', pc') := Act(w, t, pc, takesCtx);
            var once := w'.sessions[id].once;
            once.Inside? ==>
              || (once.t == t && InsideOf(pc', id))
              || (id in w.sessions && w.sessions[id].once == once && !(InsideOf(pc, id) && !InsideOf(pc', id)))
  {
  }

  lemma StepKeepsEntered(s: State, e: Event, id: Id)
    requires Inv(s) && id in Step(s, e).w.sessions && (id in s.w.sessions ==> EnteredOk(s.w, s.pcs, id))
    ensures EnteredOk(Step(s, e).w, Step(s, e).pcs, id)
  {
    if e.Run? && e.t in s.pcs {
      ActEnters(s.w, e.t, s.pcs[e.t], e.takesCtx, id);
      assert ThreadOk(s.w, e.t, s.pcs[e.t]);
    }
  }

  lemma {:induction false} RunKeepsEntered(es: seq<Event>, id: Id)
    requires id in RunAll(Init(), es).w.sessions
    ensures var s := RunAll(Init(), es); EnteredOk(s.w, s.pcs, id)
  {
    if es != [] {
      var s := RunAll(Init(), es[..|es| - 1]);
      RunKeepsInv(es[..|es| - 1]);
      if id in s.w.sessions {
        RunKeepsEntered(es[..|es| - 1], id);
      }
      StepKeepsEntered(s, es[|es| - 1], id);
    }
  }

  // A bound on the steps a goroutine still takes.
  function Left(pc: PC): nat {
    match pc
    case Attaching => 6
    case Swapping(_) => 5
    case ClosingPrev(_, _) => 4
    case Waiting(_) => 3
    case Detaching(_, _) => 2
    case Closing(_, _) => 1
    case Reporting(_, _) => 3
    case Sending(_, _) => 2
    case ReportClosing(_) => 1
    case Shutting => 2
    case ShutClosing(_) => 1
    case _ => 0
  }

  // A handler without an error and without the end of its context has to wait.
  predicate MayWait(s: State, t: Tid)
    requires t in s.pcs
  {
    s.pcs[t].Waiting? && s.pcs[t].id in s.w.sessions && s.w.sessions[s.pcs[t].id].chan == None
  }

  lemma StepAdvances(w: World, t: Tid, pc: PC, takesCtx: bool)
    requires Names(w, pc) && Left(pc) > 0
    requires pc.Waiting? ==> w.sessions[pc.id].chan.Some?
    requires pc.Reporting? ==> !w.sessions[pc.id].once.Inside?
    ensures Left(Act(w, t, pc, takesCtx).1) < Left(pc)
  {
  }

  /** Nothing but a handler without an error waits for long: for every other unfinished
      goroutine it, or whoever is inside the same errOnce, comes nearer its end by its next
      step. */
  lemma NobodyHangs(es: seq<Event>, t: Tid, takesCtx: bool) returns (u: Tid)
    requires var s := RunAll(Init(), es); t in s.pcs && Left(s.pcs[t]) > 0 && !MayWait(s, t)
    ensures var s := RunAll(Init(), es);
            && u in s.pcs && u in Step(s, Run(u, takesCtx)).pcs
            && Left(Step(s, Run(u, takesCtx)).pcs[u]) < Left(s.pcs[u])
            && (u == t || (s.pcs[t].Reporting? && InsideOf(s.pcs[u], s.pcs[t].id)))
  {
    RunKeepsInv(es);
    var s := RunAll(Init(), es);
    u := t;
    if s.pcs[t].Reporting? && s.w.sessions[s.pcs[t].id].once.Inside? {
      RunKeepsEntered(es, s.pcs[t].id);
      u := s.w.sessions[s.pcs[t].id].once.t;
    }
    StepAdvances(s.w, u, s.pcs[u], takesCtx);
  }
}
