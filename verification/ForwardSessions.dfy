/**
  The session slot of api/forwarding_supervisor.go: any number of handleForwarding
  calls, of goroutines reporting errors on any session at any time, and of Close
  calls, interleaved at every lock, once-guard and channel operation.
 */
module ForwardSessions {
  import opened Options

  type Tid = nat
  type Id = nat
  type Err = int

  // errOnce: not entered, entered by a goroutine that is still inside, or done.
  datatype Once = Fresh | Inside(t: Tid) | Fired

  // `first` is the error of the report that won errOnce; `put` lists what was ever
  // sent on errCh, `chan` what waits in it (capacity 1).
  datatype Session = Session(closed: bool, once: Once, first: Option<Err>, put: seq<Err>, chan: Option<Err>)

  datatype PC =
    | Attaching                     // handleForwarding, attach before the id
    | Swapping(id: Id)              // attach, before its lock
    | ClosingPrev(id: Id, prev: Id) // attach, closing the displaced session
    | Waiting(id: Id)
    | Detaching(id: Id, got: Option<Err>)   // by an error, or by ctx
    | Closing(id: Id, got: Option<Err>)     // the deferred session.close
    | Returned(id: Id, got: Option<Err>)
    | Reporting(id: Id, err: Err)   // reportSessionError
    | Sending(id: Id, err: Err)     // inside errOnce
    | ReportClosing(id: Id)         // inside errOnce
    | Reported(id: Id)
    | Shutting                      // supervisor Close, before its lock
    | ShutClosing(id: Id)
    | Shut

  // `order` lists the sessions in the order they became active; `swapping` are the ids
  // whose attach has not swapped yet, `overlapped` says an attach ever began while
  // another had not swapped; `dropped` counts reports that found errCh full.
  datatype World = World(active: Option<Id>, sessions: map<Id, Session>, next: Id, order: seq<Id>,
                         swapping: set<Id>, overlapped: bool, dropped: nat)

  datatype State = State(w: World, pcs: map<Tid, PC>)

  datatype Event =
    | Handle(t: Tid)                     // handleForwarding starts
    | Report(t: Tid, id: Id, err: Err)   // somebody calls reportSessionError
    | Close(t: Tid)
    | Run(t: Tid, takesCtx: bool)       // whether a waiting select returns by ctx

  function Init(): State {
    State(World(None, map[], 0, [], {}, false, 0), map[])
  }

  function CloseSession(w: World, id: Id): World
    requires id in w.sessions
  {
    w.(sessions := w.sessions[id := w.sessions[id].(closed := true)])
  }

  predicate Names(w: World, pc: PC) {
    match pc
    case Attaching => true
    case Shutting => true
    case Shut => true
    case ClosingPrev(id, prev) => id in w.sessions && prev in w.sessions
    case _ => pc.id in w.sessions
  }

  function Act(w: World, t: Tid, pc: PC, takesCtx: bool): (World, PC)
    requires Names(w, pc)
  {
    match pc
    case Attaching =>
      (w.(sessions := w.sessions[w.next := Session(false, Fresh, None, [], None)], next := w.next + 1,
          swapping := w.swapping + {w.next}, overlapped := w.overlapped || w.swapping != {}),
       Swapping(w.next))
    case Swapping(id) =>
      (w.(active := Some(id), order := w.order + [id], swapping := w.swapping - {id}),
       if w.active.Some? then ClosingPrev(id, w.active.value) else Waiting(id))
    case ClosingPrev(id, prev) => (CloseSession(w, prev), Waiting(id))
    case Waiting(id) =>
      // With an error waiting and ctx done, select may take either.
      if takesCtx then (w, Detaching(id, None))
      else if w.sessions[id].chan.Some?
      then (w.(sessions := w.sessions[id := w.sessions[id].(chan := None)]), Detaching(id, w.sessions[id].chan))
      else (w, pc)
    case Detaching(id, got) => (if w.active == Some(id) then w.(active := None) else w, Closing(id, got))
    case Closing(id, got) => (CloseSession(w, id), Returned(id, got))
    case Returned(_, _) => (w, pc)
    case Reporting(id, err) => Enter(w, t, id, err)
    case Sending(id, err) => (SendErr(w, id, err), ReportClosing(id))
    case ReportClosing(id) =>
      (w.(sessions := w.sessions[id := w.sessions[id].(closed := true, once := Fired)]), Reported(id))
    case Reported(_) => (w, pc)
    case Shutting =>
      (w.(active := None), if w.active.Some? then ShutClosing(w.active.value) else Shut)
    case ShutClosing(id) => (CloseSession(w, id), Shut)
    case Shut => (w, pc)
  }

  // errOnce.Do: the first caller runs the body, the others wait for it to finish.
  function Enter(w: World, t: Tid, id: Id, err: Err): (World, PC)
    requires id in w.sessions
  {
    match w.sessions[id].once
    case Fresh =>
      (w.(sessions := w.sessions[id := w.sessions[id].(once := Inside(t), first := Some(err))]), Sending(id, err))
    case Inside(_) => (w, Reporting(id, err))
    case Fired => (w, Reported(id))
  }

  // The send never blocks: a full channel drops the error.
  function SendErr(w: World, id: Id, err: Err): World
    requires id in w.sessions
  {
    var s := w.sessions[id];
    if s.chan == None then w.(sessions := w.sessions[id := s.(chan := Some(err), put := s.put + [err])])
    else w.(dropped := w.dropped + 1)
  }

  // ---- The invariant: what each session, each goroutine and the slot know.

  ghost predicate SessionOk(s: Session) {
    && (s.once == Fresh ==> s.put == [])
    && (s.once == Fired ==> |s.put| == 1 && s.closed)
    && (s.put != [] ==> s.first.Some? && s.put == [s.first.value])
    && (s.chan.Some? ==> s.put == [s.chan.value])
  }

  // What a handler was woken with is the error that was sent.
  predicate Got(s: Session, got: Option<Err>) {
    got.Some? ==> s.put == [got.value]
  }

  ghost predicate ThreadOk(w: World, t: Tid, pc: PC)
    requires Names(w, pc)
  {
    match pc
    case Swapping(id) => id !in w.order && id in w.swapping
    case ClosingPrev(id, prev) => id in w.order && prev in w.order && w.active != Some(prev)
    case ShutClosing(id) => id in w.order && w.active != Some(id)
    case Waiting(id) => id in w.order
    case Detaching(id, got) => id in w.order && Got(w.sessions[id], got)
    case Closing(id, got) => id in w.order && w.active != Some(id) && Got(w.sessions[id], got)
    case Returned(id, got) =>
      id in w.order && w.active != Some(id) && w.sessions[id].closed && Got(w.sessions[id], got)
    case Sending(id, err) =>
      var s := w.sessions[id]; s.once == Inside(t) && s.put == [] && s.chan == None && s.first == Some(err)
    case ReportClosing(id) => w.sessions[id].once == Inside(t) && |w.sessions[id].put| == 1
    case Reported(id) => w.sessions[id].closed && w.sessions[id].put != []
    case _ => true
  }

  // The session this goroutine is about to close.
  function Owes(pc: PC): Option<Id> {
    match pc
    case ClosingPrev(_, prev) => Some(prev)
    case Closing(id, _) => Some(id)
    case ShutClosing(id) => Some(id)
    case _ => None
  }

  // A session is closed by a report, or after it has left the slot.
  predicate ClosedOk(w: World, id: Id)
    requires id in w.sessions
  {
    w.sessions[id].closed ==> w.sessions[id].once == Fired || (id in w.order && w.active != Some(id))
  }

  ghost predicate WorldOk(w: World) {
    && (forall id: Id :: id in w.sessions <==> id < w.next)
    && (forall id | id in w.order :: id < w.next)
    && (w.active.Some? ==> w.active.value in w.order)
    && (forall id | id in w.sessions :: SessionOk(w.sessions[id]))
    && (forall id | id in w.sessions :: ClosedOk(w, id))
    && w.dropped == 0
  }

  ghost predicate NobodyForgets(w: World, pcs: map<Tid, PC>)
    requires forall id | id in w.order :: id in w.sessions
  {
    forall id | id in w.order && w.active != Some(id) && !w.sessions[id].closed ::
      exists t | t in pcs :: Owes(pcs[t]) == Some(id)
  }

  ghost predicate ThreadsOk(w: World, pcs: map<Tid, PC>) {
    && (forall t | t in pcs :: Names(w, pcs[t]) && ThreadOk(w, t, pcs[t]))
    && (forall t, u | t in pcs && u in pcs && t != u && pcs[t].Swapping? :: pcs[u] != pcs[t])
  }

  ghost predicate Inv(s: State) {
    WorldOk(s.w) && ThreadsOk(s.w, s.pcs) && NobodyForgets(s.w, s.pcs)
  }

  function Step(s: State, e: Event): State {
    match e
    case Handle(t) => if t in s.pcs then s else s.(pcs := s.pcs[t := Attaching])
    case Report(t, id, err) =>
      if t in s.pcs || id !in s.w.sessions then s else s.(pcs := s.pcs[t := Reporting(id, err)])
    case Close(t) => if t in s.pcs then s else s.(pcs := s.pcs[t := Shutting])
    case Run(t, takesCtx) =>
      if t !in s.pcs || !Names(s.w, s.pcs[t]) then s
      else var (w, pc) := Act(s.w, t, s.pcs[t], takesCtx); State(w, s.pcs[t := pc])
  }

  // What no step of one goroutine undoes for the others.
  ghost predicate GrowsSlot(w: World, w': World) {
    && w.next <= w'.next
    && (forall id | id in w.order :: id in w'.order)
    && (forall id | id in w.swapping :: id in w'.swapping || id in w'.order)
    && (w'.active.Some? && w'.active != w.active ==> w'.active.value !in w.order)
  }

  ghost predicate GrowsSession(s: Session, s': Session, t: Tid) {
    && (s.closed ==> s'.closed)
    && (s.put != [] ==> s'.put == s.put)
    && (s.once.Inside? && s.once != Inside(t) ==>
          s'.once == s.once && s'.put == s.put && s'.first == s.first && (s.chan == None ==> s'.chan == None))
  }

  ghost predicate Grows(w: World, w': World, t: Tid) {
    GrowsSlot(w, w')
    && forall id | id in w.sessions :: id in w'.sessions && GrowsSession(w.sessions[id], w'.sessions[id], t)
  }

  lemma ActGrowsSlot(w: World, t: Tid, pc: PC, takesCtx: bool)
    requires WorldOk(w) && Names(w, pc) && ThreadOk(w, t, pc)
    ensures GrowsSlot(w, Act(w, t, pc, takesCtx).0)
  {
  }

  lemma ActOnSession(w: World, t: Tid, pc: PC, takesCtx: bool, id: Id)
    requires WorldOk(w) && Names(w, pc) && ThreadOk(w, t, pc) && id in w.sessions
    ensures var w' := Act(w, t, pc, takesCtx).0;
            id in w'.sessions && GrowsSession(w.sessions[id], w'.sessions[id], t) && SessionOk(w'.sessions[id])
  {
    assert SessionOk(w.sessions[id]);
  }

  lemma ActClosesRightly(w: World, t: Tid, pc: PC, takesCtx: bool, id: Id)
    requires WorldOk(w) && Names(w, pc) && ThreadOk(w, t, pc) && id in Act(w, t, pc, takesCtx).0.sessions
    ensures ClosedOk(Act(w, t, pc, takesCtx).0, id)
  {
    assert id in w.sessions ==> ClosedOk(w, id);
  }

  lemma ActGrows(w: World, t: Tid, pc: PC, takesCtx: bool)
    requires WorldOk(w) && Names(w, pc) && ThreadOk(w, t, pc)
    ensures Grows(w, Act(w, t, pc, takesCtx).0, t)
  {
    ActGrowsSlot(w, t, pc, takesCtx);
    var w' := Act(w, t, pc, takesCtx).0;
    forall id | id in w.sessions
      ensures id in w'.sessions && GrowsSession(w.sessions[id], w'.sessions[id], t)
    {
      ActOnSession(w, t, pc, takesCtx, id);
    }
  }

  lemma ActKeepsWorld(w: World, t: Tid, pc: PC, takesCtx: bool)
    requires WorldOk(w) && Names(w, pc) && ThreadOk(w, t, pc)
    ensures WorldOk(Act(w, t, pc, takesCtx).0)
  {
    var w' := Act(w, t, pc, takesCtx).0;
    forall id | id in w'.sessions
      ensures SessionOk(w'.sessions[id]) && ClosedOk(w', id)
    {
      ActClosesRightly(w, t, pc, takesCtx, id);
      if id in w.sessions {
        ActOnSession(w, t, pc, takesCtx, id);
      }
    }
  }

  lemma ActKeepsThread(w: World, t: Tid, pc: PC, takesCtx: bool)
    requires WorldOk(w) && Names(w, pc) && ThreadOk(w, t, pc)
    ensures var (w', pc') := Act(w, t, pc, takesCtx); Names(w', pc') && ThreadOk(w', t, pc')
  {
  }

  lemma OthersUndisturbed(w: World, w': World, t: Tid, u: Tid, pc: PC)
    requires WorldOk(w) && Grows(w, w', t) && t != u && Names(w, pc) && ThreadOk(w, u, pc)
    requires pc.Swapping? ==> pc.id !in w'.order
    ensures Names(w', pc) && ThreadOk(w', u, pc)
  {
  }

  lemma ActOrder(w: World, t: Tid, pc: PC, takesCtx: bool)
    requires Names(w, pc)
    ensures var w' := Act(w, t, pc, takesCtx).0;
            w'.order == if pc.Swapping? then w.order + [pc.id] else w.order
    ensures var pc' := Act(w, t, pc, takesCtx).1;
            pc'.Swapping? ==> pc' == Swapping(w.next)
  {
  }

  lemma StepKeepsThreads(s: State, t: Tid, takesCtx: bool)
    requires Inv(s) && t in s.pcs
    ensures var (w, pc) := Act(s.w, t, s.pcs[t], takesCtx); ThreadsOk(w, s.pcs[t := pc])
  {
    var (w, pc) := Act(s.w, t, s.pcs[t], takesCtx);
    ActGrows(s.w, t, s.pcs[t], takesCtx);
    ActKeepsThread(s.w, t, s.pcs[t], takesCtx);
    ActOrder(s.w, t, s.pcs[t], takesCtx);
    forall u | u in s.pcs && u != t
      ensures Names(w, s.pcs[u]) && ThreadOk(w, u, s.pcs[u])
    {
      OthersUndisturbed(s.w, w, t, u, s.pcs[u]);
    }
  }

  // A session leaves the slot, or gets a closer, only in the hands of somebody who
  // will close it.
  lemma ActForgetsNothing(w: World, t: Tid, pc: PC, takesCtx: bool, id: Id)
    requires WorldOk(w) && Names(w, pc) && ThreadOk(w, t, pc) && id in Act(w, t, pc, takesCtx).0.order
    ensures var (w', pc') := Act(w, t, pc, takesCtx);
            id in w'.sessions && (w'.active == Some(id) || w'.sessions[id].closed || Owes(pc') == Some(id)
            || (id in w.order && w.active != Some(id) && !w.sessions[id].closed && Owes(pc) != Some(id)))
  {
  }

  lemma StepForgetsNothing(s: State, t: Tid, takesCtx: bool)
    requires Inv(s) && t in s.pcs
    requires WorldOk(Act(s.w, t, s.pcs[t], takesCtx).0)
    ensures var (w, pc) := Act(s.w, t, s.pcs[t], takesCtx); NobodyForgets(w, s.pcs[t := pc])
  {
    var (w, pc) := Act(s.w, t, s.pcs[t], takesCtx);
    var pcs := s.pcs[t := pc];
    assert t in pcs && pcs[t] == pc;
    forall id | id in w.order && w.active != Some(id) && !w.sessions[id].closed
      ensures exists u | u in pcs :: Owes(pcs[u]) == Some(id)
    {
      ActForgetsNothing(s.w, t, s.pcs[t], takesCtx, id);
      if Owes(pc) != Some(id) {
        var u :| u in s.pcs && Owes(s.pcs[u]) == Some(id);
        assert u in pcs && pcs[u] == s.pcs[u];
      }
    }
  }

  lemma ArrivalKeepsInv(s: State, t: Tid, pc: PC)
    requires Inv(s) && t !in s.pcs && (pc.Attaching? || pc.Shutting? || (pc.Reporting? && pc.id in s.w.sessions))
    ensures Inv(s.(pcs := s.pcs[t := pc]))
  {
    var pcs := s.pcs[t := pc];
    forall id | id in s.w.order && s.w.active != Some(id) && !s.w.sessions[id].closed
      ensures exists u | u in pcs :: Owes(pcs[u]) == Some(id)
    {
      var u :| u in s.pcs && Owes(s.pcs[u]) == Some(id);
      assert u in pcs && pcs[u] == s.pcs[u];
    }
  }

  lemma StepKeepsInv(s: State, e: Event)
    requires Inv(s)
    ensures Inv(Step(s, e))
  {
    match e
    case Handle(t) => if t !in s.pcs { ArrivalKeepsInv(s, t, Attaching); }
    case Report(t, id, err) =>
      if t !in s.pcs && id in s.w.sessions { ArrivalKeepsInv(s, t, Reporting(id, err)); }
    case Close(t) => if t !in s.pcs { ArrivalKeepsInv(s, t, Shutting); }
    case Run(t, takesCtx) =>
      if t in s.pcs {
        ActKeepsWorld(s.w, t, s.pcs[t], takesCtx);
        StepKeepsThreads(s, t, takesCtx);
        StepForgetsNothing(s, t, takesCtx);
      }
  }

  function RunAll(s: State, es: seq<Event>): State {
    if es == [] then s else Step(RunAll(s, es[..|es| - 1]), es[|es| - 1])
  }

  lemma {:induction false} RunKeepsInv(es: seq<Event>)
    ensures Inv(RunAll(Init(), es))
  {
    if es == [] {
      var s := Init();
      assert WorldOk(s.w);
      assert ThreadsOk(s.w, s.pcs);
      assert NobodyForgets(s.w, s.pcs);
    } else {
      RunKeepsInv(es[..|es| - 1]);
      StepKeepsInv(RunAll(Init(), es[..|es| - 1]), es[|es| - 1]);
    }
  }

  // ---- What every run promises.

  /** The first error reported for a session is the only one ever put on its channel,
      and no report is ever dropped for want of room. */
  lemma OnlyFirstErrorIsSent(es: seq<Event>, id: Id)
    requires id in RunAll(Init(), es).w.sessions
    ensures var w := RunAll(Init(), es).w;
            var s := w.sessions[id];
            && w.dropped == 0
            && (s.put == [] || (s.first.Some? && s.put == [s.first.value]))
            && (s.chan.Some? ==> s.put == [s.chan.value])
  {
    RunKeepsInv(es);
  }

  /** When any reportSessionError call has returned, its session is closed and the first
      reported error has been sent, whoever reported it. */
  lemma ReportClosesSession(es: seq<Event>, t: Tid)
    requires var s := RunAll(Init(), es); t in s.pcs && s.pcs[t].Reported?
    ensures var s := RunAll(Init(), es);
            && s.pcs[t].id in s.w.sessions
            && var session := s.w.sessions[s.pcs[t].id];
               session.closed && session.first.Some? && session.put == [session.first.value]
  {
    RunKeepsInv(es);
    var s := RunAll(Init(), es);
    assert ThreadOk(s.w, t, s.pcs[t]);
  }

  /** A session that was displaced, or taken by Close, or detached is closed, or some
      goroutine's next step on it closes it. */
  lemma DisplacedGetsClosed(es: seq<Event>, id: Id)
    requires var w := RunAll(Init(), es).w; id in w.order && w.active != Some(id)
    ensures var s := RunAll(Init(), es);
            && id in s.w.sessions
            && (s.w.sessions[id].closed
                || exists t | t in s.pcs ::
                     && Owes(s.pcs[t]) == Some(id)
                     && var s' := Step(s, Run(t, false)); id in s'.w.sessions && s'.w.sessions[id].closed)
  {
    RunKeepsInv(es);
    var s := RunAll(Init(), es);
    if !s.w.sessions[id].closed {
      var t :| t in s.pcs && Owes(s.pcs[t]) == Some(id);
      var s' := Step(s, Run(t, false));
      assert id in s'.w.sessions && s'.w.sessions[id].closed;
    }
  }

  /** When handleForwarding has returned after an attach, its session is closed and is
      not the active one, then and ever after. */
  lemma HandlerLeavesNothing(es: seq<Event>, t: Tid)
    requires var s := RunAll(Init(), es); t in s.pcs && s.pcs[t].Returned?
    ensures var s := RunAll(Init(), es);
            var id := s.pcs[t].id;
            id in s.w.sessions && s.w.sessions[id].closed && s.w.active != Some(id)
  {
    RunKeepsInv(es);
    var s := RunAll(Init(), es);
    assert ThreadOk(s.w, t, s.pcs[t]);
  }

  /** While a session is the active one nothing closes it but a reported error. */
  lemma ActiveIsOpenUnlessReported(es: seq<Event>)
    requires var w := RunAll(Init(), es).w; w.active.Some? && w.active.value in w.sessions
    requires var w := RunAll(Init(), es).w; w.sessions[w.active.value].closed
    ensures var w := RunAll(Init(), es).w;
            var s := w.sessions[w.active.value]; s.first.Some? && s.put == [s.first.value]
  {
    RunKeepsInv(es);
    var w := RunAll(Init(), es).w;
    assert ClosedOk(w, w.active.value) && SessionOk(w.sessions[w.active.value]);
  }

  // ---- Session ids grow when attaches do not overlap.

  ghost predicate Ascending(order: seq<Id>) {
    forall i, j | 0 <= i < j < |order| :: order[i] < order[j]
  }

  ghost predicate InTurn(w: World) {
    !w.overlapped ==>
      && Ascending(w.order)
      && (w.swapping == {} || (w.next > 0 && w.swapping == {w.next - 1} && w.next - 1 !in w.order))
  }

  lemma ActKeepsTurn(w: World, t: Tid, pc: PC, takesCtx: bool)
    requires WorldOk(w) && Names(w, pc) && ThreadOk(w, t, pc) && InTurn(w)
    ensures InTurn(Act(w, t, pc, takesCtx).0)
  {
    if pc.Swapping? && !w.overlapped {
      assert pc.id == w.next - 1;
      assert w.swapping - {pc.id} == {};
      forall i | 0 <= i < |w.order|
        ensures w.order[i] < pc.id
      {
        assert w.order[i] in w.order;
      }
    }
  }

  /** If no attach begins before the previous one has swapped, the sessions become
      active in the order of their ids. */
  lemma {:induction false} SerialAttachesAscend(es: seq<Event>)
    ensures InTurn(RunAll(Init(), es).w)
    ensures var w := RunAll(Init(), es).w; !w.overlapped ==> Ascending(w.order)
  {
    if es != [] {
      var s, e := RunAll(Init(), es[..|es| - 1]), es[|es| - 1];
      SerialAttachesAscend(es[..|es| - 1]);
      RunKeepsInv(es[..|es| - 1]);
      if e.Run? && e.t in s.pcs {
        ActKeepsTurn(s.w, e.t, s.pcs[e.t], e.takesCtx);
      }
    }
  }

  predicate ActiveIsLast(w: World) {
    w.active.Some? ==> w.order != [] && w.active.value == w.order[|w.order| - 1]
  }

  lemma ActKeepsLast(w: World, t: Tid, pc: PC, takesCtx: bool)
    requires Names(w, pc) && ActiveIsLast(w)
    ensures var w' := Act(w, t, pc, takesCtx).0;
            ActiveIsLast(w') && w.order <= w'.order && (w.overlapped ==> w'.overlapped)
  {
  }

  lemma LastStep(es: seq<Event>, e: Event)
    requires ActiveIsLast(RunAll(Init(), es).w)
    ensures var w, w' := RunAll(Init(), es).w, RunAll(Init(), es + [e]).w;
            ActiveIsLast(w') && w.order <= w'.order && (w.overlapped ==> w'.overlapped)
  {
    assert (es + [e])[..|es + [e]| - 1] == es;
    StepKeepsLast(RunAll(Init(), es), e);
  }

  lemma {:induction false} OrderOnlyGrows(es: seq<Event>, more: seq<Event>)
    ensures var w, w' := RunAll(Init(), es).w, RunAll(Init(), es + more).w;
            ActiveIsLast(w') && w.order <= w'.order && (w.overlapped ==> w'.overlapped)
    decreases |es| + |more|
  {
    if more != [] {
      var before := es + more[..|more| - 1];
      assert before + [more[|more| - 1]] == es + more;
      OrderOnlyGrows(es, more[..|more| - 1]);
      LastStep(before, more[|more| - 1]);
    } else if es != [] {
      assert es + more == es;
      OrderOnlyGrows([], es[..|es| - 1]);
      assert [] + es[..|es| - 1] == es[..|es| - 1];
      assert es[..|es| - 1] + [es[|es| - 1]] == es;
      LastStep(es[..|es| - 1], es[|es| - 1]);
    }
  }

  lemma StepKeepsLast(s: State, e: Event)
    requires ActiveIsLast(s.w)
    ensures var w' := Step(s, e).w;
            ActiveIsLast(w') && s.w.order <= w'.order && (s.w.overlapped ==> w'.overlapped)
  {
    if e.Run? && e.t in s.pcs && Names(s.w, s.pcs[e.t]) {
      ActKeepsLast(s.w, e.t, s.pcs[e.t], e.takesCtx);
    }
  }

  /** Whoever samples the active session twice never sees an older one the second time,
      as long as no two attaches overlap. */
  lemma SampledNeverGoesBack(es: seq<Event>, more: seq<Event>)
    requires var w, w' := RunAll(Init(), es).w, RunAll(Init(), es + more).w;
             !w'.overlapped && w.active.Some? && w'.active.Some?
    ensures RunAll(Init(), es).w.active.value <= RunAll(Init(), es + more).w.active.value
  {
    OrderOnlyGrows(es, []);
    assert es + [] == es;
    OrderOnlyGrows(es, more);
    SerialAttachesAscend(es + more);
    var order, order' := RunAll(Init(), es).w.order, RunAll(Init(), es + more).w.order;
    assert order'[|order| - 1] == order[|order| - 1];
  }
}
