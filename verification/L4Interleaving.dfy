/**
  Any number of DialContext and Close calls on one L4Proxy, interleaved at every
  mutex section, channel operation and atomic access (api/l4proxy.go).
 */
module L4Interleaving {
  import opened Options
  import opened L4Shared

  type Tid = nat

  // What a closeConn call goes back to: the one retry of openStreamWithRetry, or
  // the return of the dial.
  datatype After = Retry | Return

  datatype PC =
    | DialFast(retry: bool)              // dialConn, before the first lookup
    | DialWait(retry: bool)              // at dialSem
    | DialRecheck(retry: bool)           // owns dialSem
    | Building(retry: bool)              // in quic.Dial
    | Storing(retry: bool, c: Conn)      // built c
    | Discarding(c: Conn)                // Close won: c must be closed
    | ReleaseErr                         // deferred release, then an error
    | ReleaseOk(retry: bool, c: Conn)    // deferred release, then c
    | Opening(retry: bool, c: Conn)      // OpenRequestStream on c
    | Exchange(c: Conn)                  // CONNECT request and response
    | NoteCheck(c: Conn)                 // noteConnFailure, current?
    | NoteLoad(c: Conn)
    | NoteStamp(c: Conn)
    | NoteDecide(c: Conn, first: nat)
    | CloseCheck(c: Conn, after: After)  // closeConn, before its lock
    | CloseClear(c: Conn, after: After)  // owns c
    | CloseCount(c: Conn, after: After)
    | CloseFinish(c: Conn, after: After)
    | Shutdown                           // Close, before its lock
    | ShutdownClose(c: Conn)
    | Done

  // How the outside world answers one step.
  datatype Choice = Choice(ok: bool, cancelled: bool, now: nat)

  datatype Event = StartDial(t: Tid) | StartClose(t: Tid) | Run(t: Tid, ch: Choice)

  // `next` numbers the dials; `gone` are the closed connections. `stored`, `torn`
  // and `taken` record every store, every closeConn teardown and every connection
  // taken by Close; `failed` records every CONNECT failure handed to noteConnFailure.
  datatype World = World(timeout: nat, sh: Shared, sem: Option<Tid>, next: Conn, gone: set<Conn>,
                         stored: multiset<Conn>, torn: multiset<Conn>, taken: multiset<Conn>,
                         failed: multiset<Conn>)

  datatype State = State(w: World, pcs: map<Tid, PC>)

  function Init(timeout: nat): State {
    State(World(timeout, Shared(false, None, 0, 0), None, 0, {}, multiset{}, multiset{}, multiset{}, multiset{}), map[])
  }

  function Resume(after: After): PC {
    if after == Retry then DialFast(true) else Done
  }

  /** One atomic action of goroutine `t` standing at `pc`. */
  function Act(w: World, t: Tid, pc: PC, ch: Choice): (World, PC) {
    if InDial(pc) then ActDial(w, t, pc, ch)
    else if InClose(pc) then ActClose(w, pc)
    else ActExchange(w, pc, ch)
  }

  predicate InDial(pc: PC) {
    pc.DialFast? || pc.DialWait? || HoldsSem(pc)
  }

  predicate InClose(pc: PC) {
    pc.CloseCheck? || pc.CloseClear? || pc.CloseCount? || pc.CloseFinish? || pc.Shutdown? || pc.ShutdownClose?
  }

  // dialConn
  function ActDial(w: World, t: Tid, pc: PC, ch: Choice): (World, PC)
    requires InDial(pc)
  {
    match pc
    case DialFast(r) =>
      (w, match Lookup(w.sh)
          case ProxyClosed => Done
          case Cached(c) => Opening(r, c)
          case Absent => DialWait(r))
    case DialWait(r) =>
      if ch.cancelled then (w, Done)
      else if w.sem == None then (w.(sem := Some(t)), DialRecheck(r))
      else (w, pc)
    case DialRecheck(r) =>
      (w, match Lookup(w.sh)
          case ProxyClosed => ReleaseErr
          case Cached(c) => ReleaseOk(r, c)
          case Absent => Building(r))
    case Building(r) =>
      if ch.ok then (w.(next := w.next + 1), Storing(r, w.next)) else (w, ReleaseErr)
    case Storing(r, c) =>
      if w.sh.closed then (w, Discarding(c))
      else (w.(sh := StoreBuilt(w.sh, c), stored := w.stored + multiset{c}), ReleaseOk(r, c))
    case Discarding(c) => (w.(gone := w.gone + {c}), ReleaseErr)
    case ReleaseErr => (w.(sem := None), Done)
    case ReleaseOk(r, c) => (w.(sem := None), Opening(r, c))
  }

  // openStreamWithRetry, DialContext and noteConnFailure
  function ActExchange(w: World, pc: PC, ch: Choice): (World, PC) {
    match pc
    case Opening(r, c) =>
      (w, if ch.ok then Exchange(c)
          else if ch.cancelled then Done
          else CloseCheck(c, if r then Return else Retry))
    case Exchange(c) =>
      if ch.ok then (w.(sh := Answered(w.sh)), Done)
      else if ch.cancelled then (w, Done)
      else (w.(failed := w.failed + multiset{c}), NoteCheck(c))
    case NoteCheck(c) => (w, if w.sh.conn == Some(c) then NoteLoad(c) else Done)
    case NoteLoad(c) => (w, if w.sh.firstFail == 0 then NoteStamp(c) else NoteDecide(c, w.sh.firstFail))
    case NoteStamp(c) => (w.(sh := w.sh.(firstFail := ch.now)), Done)
    case NoteDecide(c, first) =>
      (w, if ch.now - first >= 2 * w.timeout then CloseCheck(c, Return) else Done)
    case _ => (w, pc)
  }

  // closeConn and Close
  function ActClose(w: World, pc: PC): (World, PC)
    requires InClose(pc)
  {
    match pc
    case CloseCheck(c, after) =>
      if StillCurrent(w.sh, Some(c))
      then (w.(sh := TakeStale(w.sh, Some(c)), torn := w.torn + multiset{c}), CloseClear(c, after))
      else (w, Resume(after))
    case CloseClear(c, after) => (w.(sh := w.sh.(firstFail := 0)), CloseCount(c, after))
    case CloseCount(c, after) =>
      (w.(sh := w.sh.(reconnects := w.sh.reconnects + 1)), CloseFinish(c, after))
    case CloseFinish(c, after) => (w.(gone := w.gone + {c}), Resume(after))
    case Shutdown =>
      (w.(sh := TakeAll(w.sh), taken := w.taken + AsMultiset(w.sh.conn)),
       if w.sh.conn.Some? then ShutdownClose(w.sh.conn.value) else Done)
    case ShutdownClose(c) => (w.(gone := w.gone + {c}), Done)
  }

  function Step(s: State, e: Event): State {
    match e
    case StartDial(t) => if t in s.pcs then s else s.(pcs := s.pcs[t := DialFast(false)])
    case StartClose(t) => if t in s.pcs then s else s.(pcs := s.pcs[t := Shutdown])
    case Run(t, ch) =>
      if t !in s.pcs then s
      else var (w, pc) := Act(s.w, t, s.pcs[t], ch); State(w, s.pcs[t := pc])
  }

  function RunAll(s: State, es: seq<Event>): State {
    if es == [] then s else Step(RunAll(s, es[..|es| - 1]), es[|es| - 1])
  }

  // ---- What the invariant speaks about.

  predicate HoldsSem(pc: PC) {
    pc.DialRecheck? || IsBuilding(pc) || pc.Discarding? || pc.ReleaseErr? || pc.ReleaseOk?
  }

  predicate IsBuilding(pc: PC) {
    pc.Building? || pc.Storing?
  }

  // The connection this goroutine alone must store or close.
  function Owns(pc: PC): Option<Conn> {
    match pc
    case Storing(_, c) => Some(c)
    case Discarding(c) => Some(c)
    case CloseClear(c, _) => Some(c)
    case CloseCount(c, _) => Some(c)
    case CloseFinish(c, _) => Some(c)
    case ShutdownClose(c) => Some(c)
    case _ => None
  }

  // The connection this goroutine was handed, which others may have closed since.
  function RefersTo(pc: PC): Option<Conn> {
    match pc
    case ReleaseOk(_, c) => Some(c)
    case Opening(_, c) => Some(c)
    case Exchange(c) => Some(c)
    case NoteCheck(c) => Some(c)
    case NoteLoad(c) => Some(c)
    case NoteStamp(c) => Some(c)
    case NoteDecide(c, _) => Some(c)
    case CloseCheck(c, _) => Some(c)
    case _ => None
  }

  predicate OwesIncrement(pc: PC) {
    pc.CloseClear? || pc.CloseCount?
  }

  // A goroutine that has not started is like one that is done.
  function PcOf(pcs: map<Tid, PC>, t: Tid): PC {
    if t in pcs then pcs[t] else Done
  }

  function Owing(pcs: map<Tid, PC>): set<Tid> {
    set t | t in pcs && OwesIncrement(pcs[t])
  }

  function AsMultiset(o: Option<Conn>): multiset<Conn> {
    if o.Some? then multiset{o.value} else multiset{}
  }

  ghost predicate SingleFlight(w: World, pcs: map<Tid, PC>) {
    && (forall t | t in pcs :: HoldsSem(pcs[t]) <==> w.sem == Some(t))
    && (w.sem.Some? ==> w.sem.value in pcs)
    && (forall t | t in pcs && IsBuilding(pcs[t]) :: w.sh.conn == None)
    && (w.sh.closed ==> w.sh.conn == None)
  }

  ghost predicate HasPlace(w: World, pcs: map<Tid, PC>, c: Conn) {
    c in w.gone || w.sh.conn == Some(c) || exists t :: t in pcs && Owns(pcs[t]) == Some(c)
  }

  ghost predicate Ownership(w: World, pcs: map<Tid, PC>) {
    && (forall t | t in pcs && Owns(pcs[t]).Some? ::
          var c := Owns(pcs[t]).value; c < w.next && c !in w.gone && w.sh.conn != Some(c))
    && (forall t, u | t in pcs && u in pcs && t != u && Owns(pcs[t]).Some? :: Owns(pcs[t]) != Owns(pcs[u]))
    && (w.sh.conn.Some? ==> w.sh.conn.value < w.next && w.sh.conn.value !in w.gone)
    && (forall c | c in w.gone :: c < w.next)
    && (forall c: Conn | c < w.next :: HasPlace(w, pcs, c))
  }

  ghost predicate Books(w: World) {
    && w.stored == w.torn + w.taken + AsMultiset(w.sh.conn)
    && (forall c: Conn :: w.stored[c] <= 1)
    && (forall c: Conn | c >= w.next :: w.stored[c] == 0)
    && |w.taken| <= (if w.sh.closed then 1 else 0)
  }

  ghost predicate HandedOut(w: World, pcs: map<Tid, PC>) {
    && (forall t | t in pcs && pcs[t].Storing? :: w.stored[pcs[t].c] == 0)
    && (forall t | t in pcs && RefersTo(pcs[t]).Some? :: w.stored[RefersTo(pcs[t]).value] == 1)
  }

  ghost predicate Accounts(w: World, pcs: map<Tid, PC>) {
    Books(w) && HandedOut(w, pcs) && |w.torn| == w.sh.reconnects + |Owing(pcs)|
  }

  ghost predicate Inv(s: State) {
    SingleFlight(s.w, s.pcs) && Ownership(s.w, s.pcs) && Accounts(s.w, s.pcs)
  }

  // ---- Every step keeps it. An action is one of seven moves; each says only what
  // the invariant can see.

  datatype Move = Keep | Build | Store | Tear | Count | Take | Dispose

  ghost predicate MovedSem(w: World, w': World, t: Tid, pc: PC, pc': PC) {
    || (w'.sem == w.sem && HoldsSem(pc') == HoldsSem(pc))
    || (w.sem == None && w'.sem == Some(t) && HoldsSem(pc'))
    || (HoldsSem(pc) && !HoldsSem(pc') && w'.sem == None)
  }

  // Where the connections go.
  ghost predicate MovedConn(m: Move, w: World, w': World, t: Tid, pc: PC, pc': PC) {
    && MovedSem(w, w', t, pc, pc')
    && (m != Take ==> w'.sh.closed == w.sh.closed)
    && (m != Build ==> !pc'.Storing? && w'.next == w.next)
    && (m != Dispose ==> w'.gone == w.gone)
    && (m in {Keep, Build, Count, Dispose} ==> w'.sh.conn == w.sh.conn)
    && (IsBuilding(pc') ==> HoldsSem(pc') && (IsBuilding(pc) || w.sh.conn == None) && w'.sh.conn == w.sh.conn)
    && match m
       case Keep => Owns(pc') == Owns(pc)
       case Build => w'.next == w.next + 1 && Owns(pc) == None && pc'.Storing? && pc'.c == w.next
       case Store => pc.Storing? && Owns(pc') == None && !w.sh.closed && w'.sh.conn == Some(pc.c)
       case Tear => w.sh.conn.Some? && w'.sh.conn == None && Owns(pc) == None && Owns(pc') == w.sh.conn
       case Count => Owns(pc') == Owns(pc)
       case Take => w'.sh.closed && w'.sh.conn == None && Owns(pc) == None && Owns(pc') == w.sh.conn
       case Dispose => Owns(pc).Some? && Owns(pc') == None && w'.gone == w.gone + {Owns(pc).value}
  }

  // What the books record.
  ghost predicate MovedLedger(m: Move, w: World, w': World, pc: PC, pc': PC) {
    && (m != Store ==> w'.stored == w.stored)
    && (m != Tear ==> w'.torn == w.torn)
    && (m != Take ==> w'.taken == w.taken)
    && (m != Tear && m != Count ==> OwesIncrement(pc') == OwesIncrement(pc))
    && (m != Count ==> w'.sh.reconnects == w.sh.reconnects)
    && (m != Store && RefersTo(pc').Some? ==> RefersTo(pc') == RefersTo(pc) || RefersTo(pc') == w.sh.conn)
    && match m
       case Store => pc.Storing? && RefersTo(pc') == Some(pc.c) && w'.stored == w.stored + multiset{pc.c}
       case Tear =>
         !OwesIncrement(pc) && OwesIncrement(pc')
         && w.sh.conn.Some? && w'.torn == w.torn + multiset{w.sh.conn.value}
       case Count =>
         OwesIncrement(pc) && !OwesIncrement(pc') && w'.sh.reconnects == w.sh.reconnects + 1
       case Take => w'.taken == w.taken + AsMultiset(w.sh.conn)
       case _ => true
  }

  ghost predicate Moved(m: Move, w: World, w': World, t: Tid, pc: PC, pc': PC) {
    MovedConn(m, w, w', t, pc, pc') && MovedLedger(m, w, w', pc, pc')
  }

  function MoveOf(w: World, pc: PC, ch: Choice): Move {
    match pc
    case Building(_) => if ch.ok then Build else Keep
    case Storing(_, _) => if w.sh.closed then Keep else Store
    case Discarding(_) => Dispose
    case CloseCheck(c, _) => if w.sh.conn == Some(c) then Tear else Keep
    case CloseCount(_, _) => Count
    case CloseFinish(_, _) => Dispose
    case Shutdown => Take
    case ShutdownClose(_) => Dispose
    case _ => Keep
  }

  lemma ClassifyDial(w: World, t: Tid, pc: PC, ch: Choice)
    requires InDial(pc) && (HoldsSem(pc) ==> w.sem == Some(t))
    ensures Moved(MoveOf(w, pc, ch), w, ActDial(w, t, pc, ch).0, t, pc, ActDial(w, t, pc, ch).1)
  {
  }

  lemma ClassifyExchange(w: World, t: Tid, pc: PC, ch: Choice)
    requires !InDial(pc) && !InClose(pc)
    ensures Moved(MoveOf(w, pc, ch), w, ActExchange(w, pc, ch).0, t, pc, ActExchange(w, pc, ch).1)
  {
  }

  lemma ClassifyTearDown(w: World, t: Tid, pc: PC, ch: Choice)
    requires InClose(pc) && !pc.Shutdown? && !pc.ShutdownClose?
    ensures MovedConn(MoveOf(w, pc, ch), w, ActClose(w, pc).0, t, pc, ActClose(w, pc).1)
  {
  }

  lemma ClassifyShutdown(w: World, t: Tid, pc: PC, ch: Choice)
    requires pc.Shutdown? || pc.ShutdownClose?
    ensures MovedConn(MoveOf(w, pc, ch), w, ActClose(w, pc).0, t, pc, ActClose(w, pc).1)
  {
  }

  lemma ClassifyCloseLedger(w: World, pc: PC, ch: Choice)
    requires InClose(pc)
    ensures MovedLedger(MoveOf(w, pc, ch), w, ActClose(w, pc).0, pc, ActClose(w, pc).1)
  {
  }

  lemma Classify(w: World, t: Tid, pc: PC, ch: Choice)
    requires HoldsSem(pc) ==> w.sem == Some(t)
    ensures Moved(MoveOf(w, pc, ch), w, Act(w, t, pc, ch).0, t, pc, Act(w, t, pc, ch).1)
  {
    if InDial(pc) {
      ClassifyDial(w, t, pc, ch);
    } else if InClose(pc) {
      if pc.Shutdown? || pc.ShutdownClose? {
        ClassifyShutdown(w, t, pc, ch);
      } else {
        ClassifyTearDown(w, t, pc, ch);
      }
      ClassifyCloseLedger(w, pc, ch);
    } else {
      ClassifyExchange(w, t, pc, ch);
    }
  }

  lemma MoveKeepsSingleFlight(m: Move, w: World, w': World, pcs: map<Tid, PC>, t: Tid, pc': PC)
    requires SingleFlight(w, pcs) && MovedConn(m, w, w', t, PcOf(pcs, t), pc')
    ensures SingleFlight(w', pcs[t := pc'])
  {
  }

  lemma MoveKeepsPlace(m: Move, w: World, w': World, pcs: map<Tid, PC>, t: Tid, pc': PC, c: Conn)
    requires SingleFlight(w, pcs) && Ownership(w, pcs) && MovedConn(m, w, w', t, PcOf(pcs, t), pc')
    requires c < w'.next
    ensures HasPlace(w', pcs[t := pc'], c)
  {
    var pcs' := pcs[t := pc'];
    assert t in pcs' && pcs'[t] == pc';
    if c < w.next {
      assert HasPlace(w, pcs, c);
      if c !in w.gone && w.sh.conn != Some(c) && Owns(PcOf(pcs, t)) != Some(c) {
        var u :| u in pcs && Owns(pcs[u]) == Some(c);
        assert u in pcs' && pcs'[u] == pcs[u];
      } else if w.sh.conn == Some(c) {
        assert w'.sh.conn == Some(c) || Owns(pc') == Some(c);
      }
    } else {
      assert Owns(pc') == Some(c);
    }
  }

  lemma MoveKeepsOwnership(m: Move, w: World, w': World, pcs: map<Tid, PC>, t: Tid, pc': PC)
    requires SingleFlight(w, pcs) && Ownership(w, pcs) && MovedConn(m, w, w', t, PcOf(pcs, t), pc')
    ensures Ownership(w', pcs[t := pc'])
  {
    var pcs' := pcs[t := pc'];
    forall c: Conn | c < w'.next
      ensures HasPlace(w', pcs', c)
    {
      MoveKeepsPlace(m, w, w', pcs, t, pc', c);
    }
  }

  lemma OwingAfter(pcs: map<Tid, PC>, t: Tid, pc: PC)
    ensures Owing(pcs[t := pc]) == if OwesIncrement(pc) then Owing(pcs) + {t} else Owing(pcs) - {t}
    ensures t in Owing(pcs) <==> t in pcs && OwesIncrement(pcs[t])
  {
  }

  lemma MoveKeepsCount(m: Move, w: World, w': World, pcs: map<Tid, PC>, t: Tid, pc': PC)
    requires MovedLedger(m, w, w', PcOf(pcs, t), pc')
    requires |w.torn| == w.sh.reconnects + |Owing(pcs)|
    ensures |w'.torn| == w'.sh.reconnects + |Owing(pcs[t := pc'])|
  {
    OwingAfter(pcs, t, pc');
  }

  lemma MoveKeepsBooks(m: Move, w: World, w': World, t: Tid, pc: PC, pc': PC)
    requires Books(w) && Moved(m, w, w', t, pc, pc')
    requires w.sh.closed ==> w.sh.conn == None
    requires pc.Storing? ==> w.stored[pc.c] == 0 && pc.c < w.next && w.sh.conn == None
    ensures Books(w')
  {
    match m
    case Store =>
      assert w'.stored == w.stored + multiset{pc.c} && w'.torn == w.torn && w'.taken == w.taken;
    case Tear =>
      assert w'.stored == w.stored && w'.torn == w.torn + multiset{w.sh.conn.value};
    case Take =>
      assert w'.stored == w.stored && w'.taken == w.taken + AsMultiset(w.sh.conn);
    case _ =>
      assert w'.stored == w.stored && w'.torn == w.torn && w'.taken == w.taken && w'.sh.conn == w.sh.conn;
  }

  lemma MoveKeepsUnstored(m: Move, w: World, w': World, pcs: map<Tid, PC>, t: Tid, pc': PC)
    requires SingleFlight(w, pcs) && Ownership(w, pcs) && Books(w) && HandedOut(w, pcs)
    requires Moved(m, w, w', t, PcOf(pcs, t), pc')
    ensures var pcs' := pcs[t := pc'];
            forall u | u in pcs' && pcs'[u].Storing? :: w'.stored[pcs'[u].c] == 0
  {
  }

  lemma MoveKeepsReference(m: Move, w: World, w': World, pcs: map<Tid, PC>, t: Tid, pc': PC, u: Tid)
    requires SingleFlight(w, pcs) && Books(w) && HandedOut(w, pcs) && Books(w')
    requires Moved(m, w, w', t, PcOf(pcs, t), pc') && u in pcs[t := pc']
    ensures var pcs' := pcs[t := pc']; RefersTo(pcs'[u]).Some? ==> w'.stored[RefersTo(pcs'[u]).value] == 1
  {
    assert w.sh.conn.Some? ==> w.stored[w.sh.conn.value] == 1;
    assert w.stored <= w'.stored;
  }

  lemma MoveKeepsHandedOut(m: Move, w: World, w': World, pcs: map<Tid, PC>, t: Tid, pc': PC)
    requires SingleFlight(w, pcs) && Ownership(w, pcs) && Books(w) && HandedOut(w, pcs) && Books(w')
    requires Moved(m, w, w', t, PcOf(pcs, t), pc')
    ensures HandedOut(w', pcs[t := pc'])
  {
    MoveKeepsUnstored(m, w, w', pcs, t, pc');
    var pcs' := pcs[t := pc'];
    forall u | u in pcs' && RefersTo(pcs'[u]).Some?
      ensures w'.stored[RefersTo(pcs'[u]).value] == 1
    {
      MoveKeepsReference(m, w, w', pcs, t, pc', u);
    }
  }

  lemma MoveKeepsInv(m: Move, s: State, w': World, t: Tid, pc': PC)
    requires Inv(s) && Moved(m, s.w, w', t, PcOf(s.pcs, t), pc')
    ensures Inv(State(w', s.pcs[t := pc']))
  {
    MoveKeepsSingleFlight(m, s.w, w', s.pcs, t, pc');
    MoveKeepsOwnership(m, s.w, w', s.pcs, t, pc');
    MoveKeepsCount(m, s.w, w', s.pcs, t, pc');
    MoveKeepsBooks(m, s.w, w', t, PcOf(s.pcs, t), pc');
    MoveKeepsHandedOut(m, s.w, w', s.pcs, t, pc');
  }

  lemma ArrivalKeepsInv(s: State, t: Tid, pc: PC)
    requires Inv(s) && t !in s.pcs && (pc == DialFast(false) || pc == Shutdown)
    ensures Inv(State(s.w, s.pcs[t := pc]))
  {
    MoveKeepsInv(Keep, s, s.w, t, pc);
  }

  lemma RunStepKeepsInv(s: State, t: Tid, ch: Choice)
    requires Inv(s) && t in s.pcs
    ensures var (w', pc') := Act(s.w, t, s.pcs[t], ch); Inv(State(w', s.pcs[t := pc']))
  {
    Classify(s.w, t, s.pcs[t], ch);
    var (w', pc') := Act(s.w, t, s.pcs[t], ch);
    MoveKeepsInv(MoveOf(s.w, s.pcs[t], ch), s, w', t, pc');
  }

  lemma StepKeepsInv(s: State, e: Event)
    requires Inv(s)
    ensures Inv(Step(s, e))
  {
    match e
    case StartDial(t) => if t !in s.pcs { ArrivalKeepsInv(s, t, DialFast(false)); }
    case StartClose(t) => if t !in s.pcs { ArrivalKeepsInv(s, t, Shutdown); }
    case Run(t, ch) => if t in s.pcs { RunStepKeepsInv(s, t, ch); }
  }

  lemma {:induction false} RunKeepsInv(timeout: nat, es: seq<Event>)
    ensures Inv(RunAll(Init(timeout), es))
  {
    if es != [] {
      RunKeepsInv(timeout, es[..|es| - 1]);
      StepKeepsInv(RunAll(Init(timeout), es[..|es| - 1]), es[|es| - 1]);
    }
  }

  // ---- What every run promises.

  lemma OneBuilderAtATime(timeout: nat, es: seq<Event>, t: Tid, u: Tid)
    requires var s := RunAll(Init(timeout), es);
             t in s.pcs && u in s.pcs && IsBuilding(s.pcs[t]) && IsBuilding(s.pcs[u])
    ensures t == u
  {
    RunKeepsInv(timeout, es);
  }

  lemma StoreNeverOverwrites(timeout: nat, es: seq<Event>, e: Event)
    ensures var before, after := RunAll(Init(timeout), es).w.sh, RunAll(Init(timeout), es + [e]).w.sh;
            before.conn.Some? && after.conn.Some? ==> before.conn == after.conn
  {
    RunKeepsInv(timeout, es);
    var s := RunAll(Init(timeout), es);
    assert (es + [e])[..|es|] == es;
    if e.Run? && e.t in s.pcs {
      Classify(s.w, e.t, s.pcs[e.t], e.ch);
    }
  }

  datatype Place = Closed | InCache | With(t: Tid)

  ghost function Places(s: State, c: Conn): set<Place> {
    (if c in s.w.gone then {Closed} else {})
    + (if s.w.sh.conn == Some(c) then {InCache} else {})
    + (set t | t in s.pcs && Owns(s.pcs[t]) == Some(c) :: With(t))
  }

  lemma ExactlyOnePlace(timeout: nat, es: seq<Event>, c: Conn)
    ensures var s := RunAll(Init(timeout), es);
            |Places(s, c)| == if c < s.w.next then 1 else 0
  {
    RunKeepsInv(timeout, es);
    var s := RunAll(Init(timeout), es);
    if c >= s.w.next {
      assert Places(s, c) == {};
    } else {
      assert HasPlace(s.w, s.pcs, c);
      var p := if c in s.w.gone then Closed
               else if s.w.sh.conn == Some(c) then InCache
               else var t :| t in s.pcs && Owns(s.pcs[t]) == Some(c); With(t);
      assert Places(s, c) == {p};
    }
  }

  lemma NothingCachedAfterClose(timeout: nat, es: seq<Event>)
    ensures var s := RunAll(Init(timeout), es); s.w.sh.closed ==> s.w.sh.conn == None
  {
    RunKeepsInv(timeout, es);
  }

  lemma NoLeakAfterClose(timeout: nat, es: seq<Event>, c: Conn)
    requires var s := RunAll(Init(timeout), es);
             s.w.sh.closed && c < s.w.next && forall t | t in s.pcs :: s.pcs[t] == Done
    ensures c in RunAll(Init(timeout), es).w.gone
  {
    RunKeepsInv(timeout, es);
    var s := RunAll(Init(timeout), es);
    assert HasPlace(s.w, s.pcs, c);
  }

  lemma BooksBalance(timeout: nat, es: seq<Event>)
    ensures var s := RunAll(Init(timeout), es);
            |s.w.stored| == s.w.sh.reconnects + |Owing(s.pcs)|
                            + (if s.w.sh.conn.Some? then 1 else 0) + |s.w.taken|
  {
    RunKeepsInv(timeout, es);
  }

  lemma RunOneMore(s: State, es: seq<Event>, e: Event)
    ensures RunAll(s, es + [e]) == Step(RunAll(s, es), e)
  {
    assert (es + [e])[..|es + [e]| - 1] == es;
  }

  lemma {:induction false} RunConcat(s: State, a: seq<Event>, b: seq<Event>)
    ensures RunAll(s, a + b) == RunAll(RunAll(s, a), b)
  {
    if b == [] {
      assert a + b == a;
    } else {
      assert (a + b)[..|a + b| - 1] == a + b[..|b| - 1];
      RunConcat(s, a, b[..|b| - 1]);
    }
  }

  lemma {:induction false} LedgerOnlyGrows(s: State, es: seq<Event>)
    ensures var s' := RunAll(s, es); s.w.torn <= s'.w.torn && s.w.taken <= s'.w.taken
  {
    if es != [] {
      LedgerOnlyGrows(s, es[..|es| - 1]);
    }
  }

  lemma SettledByTheBooks(w: World, c: Conn)
    requires Books(w)
    ensures w.torn[c] + w.taken[c] + (if w.sh.conn == Some(c) then 1 else 0) == w.stored[c] <= 1
  {
  }

  lemma CloseCheckEvicts(s: State, t: Tid, ch: Choice)
    requires Inv(s) && t in s.pcs && s.pcs[t].CloseCheck?
    ensures var w' := Step(s, Run(t, ch)).w; w'.sh.conn != Some(s.pcs[t].c) && w'.stored[s.pcs[t].c] == 1
  {
    assert RefersTo(s.pcs[t]) == Some(s.pcs[t].c);
  }

  lemma ReportActedOn(timeout: nat, es: seq<Event>, t: Tid, ch: Choice)
    requires var s := RunAll(Init(timeout), es); t in s.pcs && s.pcs[t].CloseCheck?
    ensures var s, s' := RunAll(Init(timeout), es), RunAll(Init(timeout), es + [Run(t, ch)]);
            s'.w.torn[s.pcs[t].c] + s'.w.taken[s.pcs[t].c] == 1
  {
    var s := RunAll(Init(timeout), es);
    RunKeepsInv(timeout, es);
    CloseCheckEvicts(s, t, ch);
    RunOneMore(Init(timeout), es, Run(t, ch));
    RunKeepsInv(timeout, es + [Run(t, ch)]);
    SettledByTheBooks(Step(s, Run(t, ch)).w, s.pcs[t].c);
  }

  /** However many goroutines report `c` dead, and whatever runs before, between
      and after: once one report has been acted on, `c` has left the cache exactly
      once, by one teardown or by Close, and never returns. */
  lemma DeadConnTornDownOnce(timeout: nat, es: seq<Event>, t: Tid, ch: Choice, rest: seq<Event>)
    requires var s := RunAll(Init(timeout), es); t in s.pcs && s.pcs[t].CloseCheck?
    ensures var c, s' := RunAll(Init(timeout), es).pcs[t].c, RunAll(Init(timeout), es + [Run(t, ch)] + rest);
            s'.w.torn[c] + s'.w.taken[c] == 1 && s'.w.sh.conn != Some(c)
  {
    var c, mid := RunAll(Init(timeout), es).pcs[t].c, es + [Run(t, ch)];
    ReportActedOn(timeout, es, t, ch);
    RunConcat(Init(timeout), mid, rest);
    LedgerOnlyGrows(RunAll(Init(timeout), mid), rest);
    RunKeepsInv(timeout, mid + rest);
    SettledByTheBooks(RunAll(Init(timeout), mid + rest).w, c);
  }
}
