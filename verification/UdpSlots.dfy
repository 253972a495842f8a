/**
  The semaphore that bounds upstream UDP connections (cmd/socks_adapter.go), shared by
  every association of one adapter: datagrams being forwarded, relays, and closers of
  any number of associations, interleaved at every lock, semaphore and once-guard.
 */
module UdpSlots {
  import opened Options

  const MAX_CONCURRENT_UDP_UPSTREAMS := 1024

  type Tid = nat
  type Aid = nat
  type Dst = nat
  type Uid = nat

  datatype Conn = Conn(owner: Aid, dst: Dst, released: bool)

  datatype Assoc = Assoc(closed: bool, upstreams: map<Dst, Uid>)

  datatype PC =
    | Lookup(a: Aid, dst: Dst)             // forwardFromClient, first lock
    | Acquire(a: Aid, dst: Dst)
    | Dial(a: Aid, dst: Dst)               // holds a slot
    | GiveBack(a: Aid)                     // dial failed, still holds the slot
    | Insert(a: Aid, dst: Dst, u: Uid)     // second lock; owns u
    | Discard(a: Aid, u: Uid)              // owns u
    | FirstWrite(a: Aid, dst: Dst, u: Uid)
    | Relay(a: Aid, dst: Dst, u: Uid)      // relayFromUpstream
    | Remove(a: Aid, dst: Dst, u: Uid)     // removeUpstream, before its lock
    | RemoveClose(a: Aid, u: Uid)          // owns u
    | CloseAssoc(a: Aid)                   // close, before its lock
    | CloseEach(a: Aid, us: set<Uid>)      // owns us
    | Done(a: Aid)

  // `misses` counts releases that found the semaphore empty.
  datatype World = World(sem: nat, misses: nat, assocs: map<Aid, Assoc>, conns: map<Uid, Conn>, next: Uid)

  datatype State = State(w: World, pcs: map<Tid, PC>)

  datatype Event =
    | Associate(a: Aid)
    | Datagram(t: Tid, a: Aid, dst: Dst)
    | Close(t: Tid, a: Aid)
    | Run(t: Tid, ok: bool, u: Uid)

  function Init(): State {
    State(World(0, 0, map[], map[], 0), map[])
  }

  // acquireUDPSlot and releaseUDPSlot; neither ever blocks.

  predicate HasRoom(sem: nat) {
    sem < MAX_CONCURRENT_UDP_UPSTREAMS
  }

  function Release(w: World): World {
    if w.sem > 0 then w.(sem := w.sem - 1) else w.(misses := w.misses + 1)
  }

  // countedConn.Close: the slot goes back the first time only.
  function CloseConn(w: World, u: Uid): World {
    if u !in w.conns || w.conns[u].released then w
    else Release(w.(conns := w.conns[u := w.conns[u].(released := true)]))
  }

  // What the world records of one connection and of the semaphore.
  predicate Shows(w: World, u: Uid, released: bool, sem: nat) {
    u in w.conns && w.conns[u].released == released && w.sem == sem
  }

  // The critical sections of an association.

  predicate Refuses(assoc: Assoc, dst: Dst) {
    assoc.closed || dst in assoc.upstreams
  }

  function Inserted(assoc: Assoc, dst: Dst, u: Uid): Assoc {
    if Refuses(assoc, dst) then assoc else assoc.(upstreams := assoc.upstreams[dst := u])
  }

  function Removed(assoc: Assoc, dst: Dst, u: Uid): Assoc {
    if dst in assoc.upstreams && assoc.upstreams[dst] == u
    then assoc.(upstreams := assoc.upstreams - {dst}) else assoc
  }

  function SetAssoc(w: World, a: Aid, assoc: Assoc): World {
    w.(assocs := w.assocs[a := assoc])
  }

  class UdpAdapter {
    var udpSem: nat

    constructor ()
      ensures udpSem == 0
    {
      udpSem := 0;
    }

    method AcquireUDPSlot() returns (ok: bool)
      modifies this
      ensures ok == HasRoom(old(udpSem))
      ensures udpSem == old(udpSem) + if ok then 1 else 0
    {
      ok := udpSem < MAX_CONCURRENT_UDP_UPSTREAMS;
      if ok {
        udpSem := udpSem + 1;
      }
    }

    method ReleaseUDPSlot()
      modifies this
      ensures udpSem == if old(udpSem) > 0 then old(udpSem) - 1 else 0
      ensures forall w: World | w.sem == old(udpSem) :: Release(w).sem == udpSem
    {
      if udpSem > 0 {
        udpSem := udpSem - 1;
      }
    }
  }

  class CountedConn {
    const adapter: UdpAdapter
    var released: bool
    ghost var closes: nat

    constructor (adapter: UdpAdapter)
      ensures this.adapter == adapter && !released && closes == 0
    {
      this.adapter, released, closes := adapter, false, 0;
    }

    /** Closes the connection every time, gives the slot back the first time only. */
    method Close()
      modifies this, adapter
      ensures released && closes == old(closes) + 1
      ensures adapter.udpSem
              == if old(released) || old(adapter.udpSem) == 0 then old(adapter.udpSem) else old(adapter.udpSem) - 1
      ensures forall w: World, u: Uid | Shows(w, u, old(released), old(adapter.udpSem)) ::
                Shows(CloseConn(w, u), u, released, adapter.udpSem)
    {
      closes := closes + 1;
      if !released {
        released := true;
        adapter.ReleaseUDPSlot();
      }
    }
  }

  class UdpAssociation {
    var upstreams: map<Dst, Uid>
    var closed: bool

    constructor ()
      ensures Abs() == Assoc(false, map[])
    {
      upstreams, closed := map[], false;
    }

    ghost function Abs(): Assoc
      reads this
    {
      Assoc(closed, upstreams)
    }

    method Insert(dst: Dst, u: Uid) returns (ok: bool)
      modifies this
      ensures ok <==> !old(closed) && dst !in old(upstreams)
      ensures closed == old(closed) && upstreams == if ok then old(upstreams)[dst := u] else old(upstreams)
      ensures ok == !Refuses(old(Abs()), dst) && Abs() == Inserted(old(Abs()), dst, u)
    {
      if closed || dst in upstreams {
        return false;
      }
      upstreams := upstreams[dst := u];
      return true;
    }

    method Remove(dst: Dst, u: Uid)
      modifies this
      ensures Abs() == Removed(old(Abs()), dst, u)
    {
      if dst in upstreams && upstreams[dst] == u {
        upstreams := upstreams - {dst};
      }
    }

    /** The lock section of close: hands every upstream out, once. */
    method TakeAll() returns (us: set<Uid>)
      modifies this
      ensures Abs() == Assoc(true, if old(closed) then old(upstreams) else map[])
      ensures us == if old(closed) then {} else old(upstreams).Values
    {
      us := {};
      if closed {
        return;
      }
      closed := true;
      while upstreams != map[]
        invariant closed && us + upstreams.Values == old(upstreams).Values
        decreases upstreams.Keys
      {
        var dst :| dst in upstreams;
        us := us + {upstreams[dst]};
        DropOne(upstreams, dst);
        upstreams := upstreams - {dst};
      }
    }
  }

  lemma DropOne(m: map<Dst, Uid>, dst: Dst)
    requires dst in m
    ensures m.Values == {m[dst]} + (m - {dst}).Values
    ensures (m - {dst}).Keys == m.Keys - {dst}
  {
    forall u | u in m.Values
      ensures u == m[dst] || u in (m - {dst}).Values
    {
      var d :| d in m && m[d] == u;
      assert d == dst || d in m - {dst};
    }
  }

  function Act(w: World, pc: PC, ok: bool, pick: Uid): (World, PC)
    requires pc.a in w.assocs
  {
    var assoc := w.assocs[pc.a];
    match pc
    case Lookup(a, dst) => (w, if Refuses(assoc, dst) then Done(a) else Acquire(a, dst))
    case Acquire(a, dst) =>
      if ok && HasRoom(w.sem) then (w.(sem := w.sem + 1), Dial(a, dst)) else (w, Done(a))
    case Dial(a, dst) =>
      if ok then (w.(conns := w.conns[w.next := Conn(a, dst, false)], next := w.next + 1), Insert(a, dst, w.next))
      else (w, GiveBack(a))
    case GiveBack(a) => (Release(w), Done(a))
    case Insert(a, dst, u) =>
      if Refuses(assoc, dst) then (w, Discard(a, u))
      else (SetAssoc(w, a, Inserted(assoc, dst, u)), FirstWrite(a, dst, u))
    case Discard(a, u) => (CloseConn(w, u), Done(a))
    case FirstWrite(a, dst, u) => (w, if ok then Relay(a, dst, u) else Remove(a, dst, u))
    case Relay(a, dst, u) => (w, if ok then pc else Remove(a, dst, u))
    case Remove(a, dst, u) =>
      (SetAssoc(w, a, Removed(assoc, dst, u)), RemoveClose(a, u))
    case RemoveClose(a, u) => (CloseConn(w, u), Done(a))
    case CloseAssoc(a) =>
      if assoc.closed then (w, Done(a))
      else (SetAssoc(w, a, Assoc(true, map[])), CloseEach(a, assoc.upstreams.Values))
    case CloseEach(a, us) =>
      if us == {} then (w, Done(a))
      else if pick in us then (CloseConn(w, pick), CloseEach(a, us - {pick}))
      else (w, pc)
    case Done(_) => (w, pc)
  }

  function Step(s: State, e: Event): State {
    match e
    case Associate(a) =>
      if a in s.w.assocs then s else s.(w := s.w.(assocs := s.w.assocs[a := Assoc(false, map[])]))
    case Datagram(t, a, dst) =>
      if t in s.pcs || a !in s.w.assocs then s else s.(pcs := s.pcs[t := Lookup(a, dst)])
    case Close(t, a) =>
      if t in s.pcs || a !in s.w.assocs then s else s.(pcs := s.pcs[t := CloseAssoc(a)])
    case Run(t, ok, u) =>
      if t !in s.pcs || s.pcs[t].a !in s.w.assocs then s
      else var (w, pc) := Act(s.w, s.pcs[t], ok, u); State(w, s.pcs[t := pc])
  }

  function RunAll(s: State, es: seq<Event>): State {
    if es == [] then s else Step(RunAll(s, es[..|es| - 1]), es[|es| - 1])
  }

  // ---- The invariant.

  // This goroutine holds a slot for which there is no connection.
  predicate HoldsSlot(pc: PC) {
    pc.Dial? || pc.GiveBack?
  }

  // The connections this goroutine is bound to close.
  function Owned(pc: PC): set<Uid> {
    match pc
    case Insert(_, _, u) => {u}
    case Discard(_, u) => {u}
    case RemoveClose(_, u) => {u}
    case CloseEach(_, us) => us
    case _ => {}
  }

  function Dialers(pcs: map<Tid, PC>): set<Tid> {
    set t | t in pcs && HoldsSlot(pcs[t])
  }

  function Live(conns: map<Uid, Conn>): set<Uid> {
    set u | u in conns && !conns[u].released
  }

  ghost predicate AssocOk(w: World, a: Aid, assoc: Assoc) {
    && (assoc.closed ==> assoc.upstreams == map[])
    && (forall dst | dst in assoc.upstreams ::
          var u := assoc.upstreams[dst]; u in w.conns && w.conns[u].owner == a && w.conns[u].dst == dst)
  }

  ghost predicate InUpstreams(w: World, a: Aid, u: Uid) {
    a in w.assocs && exists dst :: dst in w.assocs[a].upstreams && w.assocs[a].upstreams[dst] == u
  }

  ghost predicate IsOwned(pcs: map<Tid, PC>, a: Aid, u: Uid) {
    exists t :: t in pcs && pcs[t].a == a && u in Owned(pcs[t])
  }

  ghost predicate Balanced(w: World, pcs: map<Tid, PC>) {
    w.misses == 0 && w.sem == |Dialers(pcs)| + |Live(w.conns)| && w.sem <= MAX_CONCURRENT_UDP_UPSTREAMS
  }

  ghost predicate ThreadOk(w: World, pc: PC) {
    && pc.a in w.assocs
    && (forall u | u in Owned(pc) :: u in w.conns && w.conns[u].owner == pc.a)
    && (pc.Insert? || pc.FirstWrite? || pc.Relay? || pc.Remove? ==>
          pc.u in w.conns && w.conns[pc.u].owner == pc.a && w.conns[pc.u].dst == pc.dst)
  }

  // A connection that still counts is in its association's map, or somebody is bound
  // to close it.
  ghost predicate Kept(w: World, pcs: map<Tid, PC>, u: Uid)
    requires u in w.conns
  {
    w.conns[u].released || InUpstreams(w, w.conns[u].owner, u) || IsOwned(pcs, w.conns[u].owner, u)
  }

  ghost predicate Named(w: World, pcs: map<Tid, PC>) {
    && (forall u | u in w.conns :: u < w.next)
    && (forall a | a in w.assocs :: AssocOk(w, a, w.assocs[a]))
    && (forall t | t in pcs :: ThreadOk(w, pcs[t]))
  }

  ghost predicate Tracked(w: World, pcs: map<Tid, PC>) {
    Named(w, pcs) && forall u | u in w.conns :: Kept(w, pcs, u)
  }

  ghost predicate Inv(s: State) {
    Balanced(s.w, s.pcs) && Tracked(s.w, s.pcs)
  }

  lemma DialersAfter(pcs: map<Tid, PC>, t: Tid, pc: PC)
    ensures Dialers(pcs[t := pc]) == if HoldsSlot(pc) then Dialers(pcs) + {t} else Dialers(pcs) - {t}
    ensures t in Dialers(pcs) <==> t in pcs && HoldsSlot(pcs[t])
  {
  }

  lemma LiveAfter(conns: map<Uid, Conn>, u: Uid, c: Conn)
    ensures Live(conns[u := c]) == if c.released then Live(conns) - {u} else Live(conns) + {u}
    ensures u in Live(conns) <==> u in conns && !conns[u].released
  {
  }

  lemma CloseConnBalances(w: World, u: Uid)
    requires |Live(w.conns)| <= w.sem
    ensures var w' := CloseConn(w, u);
            w'.misses == w.misses && w'.sem - |Live(w'.conns)| == w.sem - |Live(w.conns)| && w'.sem <= w.sem
  {
    if u in w.conns {
      LiveAfter(w.conns, u, w.conns[u].(released := true));
    }
  }

  predicate Closes(pc: PC) {
    pc.Discard? || pc.RemoveClose? || pc.CloseEach?
  }

  lemma CloserBalances(w: World, pcs: map<Tid, PC>, t: Tid, ok: bool, pick: Uid)
    requires t in pcs && pcs[t].a in w.assocs && Balanced(w, pcs) && Closes(pcs[t])
    ensures var (w', pc') := Act(w, pcs[t], ok, pick); Balanced(w', pcs[t := pc'])
  {
    var (w', pc') := Act(w, pcs[t], ok, pick);
    DialersAfter(pcs, t, pc');
    assert Dialers(pcs[t := pc']) == Dialers(pcs);
    CloseConnBalances(w, if pcs[t].CloseEach? then pick else pcs[t].u);
  }

  // A step that starts or ends a dial, or moves on within one.
  lemma SlotBalances(w: World, pcs: map<Tid, PC>, t: Tid, ok: bool, pick: Uid)
    requires t in pcs && pcs[t].a in w.assocs && Balanced(w, pcs) && (pcs[t].Acquire? || pcs[t].GiveBack?)
    ensures var (w', pc') := Act(w, pcs[t], ok, pick); Balanced(w', pcs[t := pc'])
  {
    DialersAfter(pcs, t, Act(w, pcs[t], ok, pick).1);
  }

  lemma DialBalances(w: World, pcs: map<Tid, PC>, t: Tid, ok: bool, pick: Uid)
    requires t in pcs && pcs[t].a in w.assocs && Balanced(w, pcs) && pcs[t].Dial? && w.next !in w.conns
    ensures var (w', pc') := Act(w, pcs[t], ok, pick); Balanced(w', pcs[t := pc'])
  {
    var (w', pc') := Act(w, pcs[t], ok, pick);
    DialersAfter(pcs, t, pc');
    if ok {
      var c := Conn(pcs[t].a, pcs[t].dst, false);
      LiveAfter(w.conns, w.next, c);
      assert w'.conns == w.conns[w.next := c] && Live(w'.conns) == Live(w.conns) + {w.next};
      assert Dialers(pcs[t := pc']) == Dialers(pcs) - {t} && t in Dialers(pcs);
    } else {
      assert Dialers(pcs[t := pc']) == Dialers(pcs);
    }
  }

  lemma OtherKeepsSlots(w: World, pc: PC, ok: bool, pick: Uid)
    requires pc.a in w.assocs && !Closes(pc) && !pc.Acquire? && !pc.Dial? && !pc.GiveBack?
    ensures var (w', pc') := Act(w, pc, ok, pick);
            w'.conns == w.conns && w'.sem == w.sem && w'.misses == w.misses && !HoldsSlot(pc')
  {
  }

  lemma OtherBalances(w: World, pcs: map<Tid, PC>, t: Tid, ok: bool, pick: Uid)
    requires t in pcs && pcs[t].a in w.assocs && Balanced(w, pcs)
    requires !Closes(pcs[t]) && !pcs[t].Acquire? && !pcs[t].Dial? && !pcs[t].GiveBack?
    ensures var (w', pc') := Act(w, pcs[t], ok, pick); Balanced(w', pcs[t := pc'])
  {
    var (w', pc') := Act(w, pcs[t], ok, pick);
    OtherKeepsSlots(w, pcs[t], ok, pick);
    DialersAfter(pcs, t, pc');
    assert Dialers(pcs[t := pc']) == Dialers(pcs);
  }

  lemma ActBalances(w: World, pcs: map<Tid, PC>, t: Tid, ok: bool, pick: Uid)
    requires t in pcs && pcs[t].a in w.assocs && Balanced(w, pcs) && w.next !in w.conns
    ensures var (w', pc') := Act(w, pcs[t], ok, pick); Balanced(w', pcs[t := pc'])
  {
    var pc := pcs[t];
    if Closes(pc) {
      CloserBalances(w, pcs, t, ok, pick);
    } else if pc.Acquire? || pc.GiveBack? {
      SlotBalances(w, pcs, t, ok, pick);
    } else if pc.Dial? {
      DialBalances(w, pcs, t, ok, pick);
    } else {
      OtherBalances(w, pcs, t, ok, pick);
    }
  }

  // What no step undoes.
  ghost predicate Grows(w: World, w': World) {
    && (forall a | a in w.assocs :: a in w'.assocs && (w.assocs[a].closed ==> w'.assocs[a].closed))
    && (forall u | u in w.conns ::
          u in w'.conns && w'.conns[u].owner == w.conns[u].owner && w'.conns[u].dst == w.conns[u].dst)
  }

  lemma ActGrows(w: World, pc: PC, ok: bool, pick: Uid)
    requires ThreadOk(w, pc) && forall u | u in w.conns :: u < w.next
    ensures Grows(w, Act(w, pc, ok, pick).0)
  {
  }

  lemma ActKeepsAssocs(w: World, pc: PC, ok: bool, pick: Uid, a: Aid)
    requires ThreadOk(w, pc) && forall u | u in w.conns :: u < w.next
    requires forall a | a in w.assocs :: AssocOk(w, a, w.assocs[a])
    requires a in Act(w, pc, ok, pick).0.assocs
    ensures var w' := Act(w, pc, ok, pick).0; AssocOk(w', a, w'.assocs[a])
  {
    ActGrows(w, pc, ok, pick);
    assert a in w.assocs && AssocOk(w, a, w.assocs[a]);
  }

  lemma ActKeepsThread(w: World, pc: PC, ok: bool, pick: Uid)
    requires ThreadOk(w, pc) && forall u | u in w.conns :: u < w.next
    requires forall a | a in w.assocs :: AssocOk(w, a, w.assocs[a])
    ensures var (w', pc') := Act(w, pc, ok, pick);
            ThreadOk(w', pc') && pc'.a == pc.a && forall u | u in w'.conns :: u < w'.next
  {
    assert AssocOk(w, pc.a, w.assocs[pc.a]);
  }

  lemma UpstreamStays(w: World, pc: PC, ok: bool, pick: Uid, a: Aid, u: Uid)
    requires ThreadOk(w, pc) && InUpstreams(w, a, u)
    ensures var (w', pc') := Act(w, pc, ok, pick); InUpstreams(w', a, u) || (a == pc.a && u in Owned(pc'))
  {
    var dst :| dst in w.assocs[a].upstreams && w.assocs[a].upstreams[dst] == u;
    var (w', pc') := Act(w, pc, ok, pick);
    if a in w'.assocs && dst in w'.assocs[a].upstreams {
      assert w'.assocs[a].upstreams[dst] == u;
    }
  }

  lemma OwnedStays(w: World, pc: PC, ok: bool, pick: Uid, u: Uid)
    requires ThreadOk(w, pc) && u in Owned(pc)
    ensures var (w', pc') := Act(w, pc, ok, pick);
            u in Owned(pc') || InUpstreams(w', pc.a, u) || (u in w'.conns && w'.conns[u].released)
  {
    var (w', pc') := Act(w, pc, ok, pick);
    if pc.Insert? && pc'.FirstWrite? {
      assert w'.assocs[pc.a].upstreams[pc.dst] == u;
    }
  }

  // A connection that others keep stays kept, whatever thread t does.
  lemma OldStaysKept(s: State, t: Tid, ok: bool, pick: Uid, u: Uid)
    requires Inv(s) && t in s.pcs && u in s.w.conns
    ensures var (w', pc') := Act(s.w, s.pcs[t], ok, pick); u in w'.conns && Kept(w', s.pcs[t := pc'], u)
  {
    var pc, a := s.pcs[t], s.w.conns[u].owner;
    var (w', pc') := Act(s.w, pc, ok, pick);
    var pcs' := s.pcs[t := pc'];
    ActGrows(s.w, pc, ok, pick);
    ActKeepsThread(s.w, pc, ok, pick);
    assert Kept(s.w, s.pcs, u) && pcs'[t] == pc';
    if InUpstreams(s.w, a, u) {
      UpstreamStays(s.w, pc, ok, pick, a, u);
    } else if IsOwned(s.pcs, a, u) {
      var o :| o in s.pcs && s.pcs[o].a == a && u in Owned(s.pcs[o]);
      if o == t {
        OwnedStays(s.w, pc, ok, pick, u);
      } else {
        assert o in pcs' && pcs'[o] == s.pcs[o];
      }
    } else {
      ReleasedStays(s.w, pc, ok, pick, u);
    }
  }

  // The one step that makes a connection makes its thread the owner.
  lemma NewIsOwned(s: State, t: Tid, ok: bool, pick: Uid, u: Uid)
    requires t in s.pcs && ThreadOk(s.w, s.pcs[t])
    requires u in Act(s.w, s.pcs[t], ok, pick).0.conns && u !in s.w.conns
    ensures var (w', pc') := Act(s.w, s.pcs[t], ok, pick); IsOwned(s.pcs[t := pc'], w'.conns[u].owner, u)
  {
    var (w', pc') := Act(s.w, s.pcs[t], ok, pick);
    var pcs' := s.pcs[t := pc'];
    assert t in pcs' && pcs'[t].a == w'.conns[u].owner && u in Owned(pcs'[t]);
  }

  lemma ReleasedStays(w: World, pc: PC, ok: bool, pick: Uid, u: Uid)
    requires ThreadOk(w, pc) && u in w.conns && w.conns[u].released && w.next !in w.conns
    ensures var w' := Act(w, pc, ok, pick).0; u in w'.conns && w'.conns[u].released
  {
  }

  lemma ThreadStaysOk(w: World, w': World, pc: PC)
    requires ThreadOk(w, pc) && Grows(w, w')
    ensures ThreadOk(w', pc)
  {
  }

  lemma StepKeepsTracked(s: State, t: Tid, ok: bool, pick: Uid)
    requires Inv(s) && t in s.pcs
    ensures var (w', pc') := Act(s.w, s.pcs[t], ok, pick); Tracked(w', s.pcs[t := pc'])
  {
    var (w', pc') := Act(s.w, s.pcs[t], ok, pick);
    var pcs' := s.pcs[t := pc'];
    ActGrows(s.w, s.pcs[t], ok, pick);
    ActKeepsThread(s.w, s.pcs[t], ok, pick);
    forall a | a in w'.assocs
      ensures AssocOk(w', a, w'.assocs[a])
    {
      ActKeepsAssocs(s.w, s.pcs[t], ok, pick, a);
    }
    forall o | o in pcs'
      ensures ThreadOk(w', pcs'[o])
    {
      if o != t {
        ThreadStaysOk(s.w, w', s.pcs[o]);
      }
    }
    forall u | u in w'.conns
      ensures Kept(w', pcs', u)
    {
      if u in s.w.conns {
        OldStaysKept(s, t, ok, pick, u);
      } else {
        NewIsOwned(s, t, ok, pick, u);
      }
    }
  }

  lemma ArrivalKeepsKept(s: State, t: Tid, pc: PC, u: Uid)
    requires Inv(s) && t !in s.pcs && u in s.w.conns
    ensures Kept(s.w, s.pcs[t := pc], u)
  {
    var pcs' := s.pcs[t := pc];
    assert Kept(s.w, s.pcs, u);
    var a := s.w.conns[u].owner;
    if IsOwned(s.pcs, a, u) {
      var o :| o in s.pcs && s.pcs[o].a == a && u in Owned(s.pcs[o]);
      assert o in pcs' && pcs'[o] == s.pcs[o];
    }
  }

  lemma ArrivalBalances(w: World, pcs: map<Tid, PC>, t: Tid, pc: PC)
    requires Balanced(w, pcs) && t !in pcs && (pc.Lookup? || pc.CloseAssoc?)
    ensures Balanced(w, pcs[t := pc])
  {
    DialersAfter(pcs, t, pc);
    assert Dialers(pcs[t := pc]) == Dialers(pcs);
  }

  lemma ArrivalKeepsInv(s: State, t: Tid, pc: PC)
    requires Inv(s) && t !in s.pcs && pc.a in s.w.assocs && (pc.Lookup? || pc.CloseAssoc?)
    ensures Inv(s.(pcs := s.pcs[t := pc]))
  {
    ArrivalBalances(s.w, s.pcs, t, pc);
    assert ThreadOk(s.w, pc);
    forall u | u in s.w.conns
      ensures Kept(s.w, s.pcs[t := pc], u)
    {
      ArrivalKeepsKept(s, t, pc, u);
    }
  }

  lemma AssociateKeepsInv(s: State, a: Aid)
    requires Inv(s) && a !in s.w.assocs
    ensures Inv(Step(s, Associate(a)))
  {
    var s' := Step(s, Associate(a));
    forall u | u in s.w.conns
      ensures Kept(s'.w, s.pcs, u)
    {
      assert Kept(s.w, s.pcs, u);
      var o := s.w.conns[u].owner;
      if InUpstreams(s.w, o, u) {
        var dst :| dst in s.w.assocs[o].upstreams && s.w.assocs[o].upstreams[dst] == u;
        assert dst in s'.w.assocs[o].upstreams;
      }
    }
  }

  lemma StepKeepsInv(s: State, e: Event)
    requires Inv(s)
    ensures Inv(Step(s, e))
  {
    match e
    case Associate(a) => if a !in s.w.assocs { AssociateKeepsInv(s, a); }
    case Datagram(t, a, dst) => if t !in s.pcs && a in s.w.assocs { ArrivalKeepsInv(s, t, Lookup(a, dst)); }
    case Close(t, a) => if t !in s.pcs && a in s.w.assocs { ArrivalKeepsInv(s, t, CloseAssoc(a)); }
    case Run(t, ok, u) =>
      if t in s.pcs {
        ActBalances(s.w, s.pcs, t, ok, u);
        StepKeepsTracked(s, t, ok, u);
      }
  }

  lemma {:induction false} RunKeepsInv(es: seq<Event>)
    ensures Inv(RunAll(Init(), es))
  {
    if es != [] {
      RunKeepsInv(es[..|es| - 1]);
      StepKeepsInv(RunAll(Init(), es[..|es| - 1]), es[|es| - 1]);
    }
  }

  // ---- What every run promises.

  /** The slots held are the dials in progress and the connections not yet closed, never
      more than the limit, and no release ever found the semaphore empty. */
  lemma SlotsConserved(es: seq<Event>)
    ensures var s := RunAll(Init(), es);
            && s.w.sem == |Dialers(s.pcs)| + |Live(s.w.conns)|
            && s.w.sem <= MAX_CONCURRENT_UDP_UPSTREAMS && s.w.misses == 0
  {
    RunKeepsInv(es);
  }

  predicate IsClosed(w: World, a: Aid) {
    a in w.assocs && w.assocs[a].closed
  }

  lemma StepKeepsClosed(s: State, e: Event, a: Aid)
    requires Tracked(s.w, s.pcs) && IsClosed(s.w, a)
    ensures IsClosed(Step(s, e).w, a)
  {
    if e.Run? && e.t in s.pcs {
      ActGrows(s.w, s.pcs[e.t], e.ok, e.u);
    }
  }

  lemma {:induction false} ClosedStaysClosed(es: seq<Event>, more: seq<Event>, a: Aid)
    requires IsClosed(RunAll(Init(), es).w, a)
    ensures IsClosed(RunAll(Init(), es + more).w, a)
    decreases |more|
  {
    if more == [] {
      assert es + more == es;
    } else {
      var before := es + more[..|more| - 1];
      assert (es + more)[..|es + more| - 1] == before;
      ClosedStaysClosed(es, more[..|more| - 1], a);
      RunKeepsInv(before);
      StepKeepsClosed(RunAll(Init(), before), more[|more| - 1], a);
    }
  }

  /** However a run goes on, a closed association never gains an upstream. */
  lemma ClosedStaysEmpty(es: seq<Event>, more: seq<Event>, a: Aid)
    requires IsClosed(RunAll(Init(), es).w, a)
    ensures var w := RunAll(Init(), es + more).w; a in w.assocs && w.assocs[a] == Assoc(true, map[])
  {
    ClosedStaysClosed(es, more, a);
    RunKeepsInv(es + more);
    var w := RunAll(Init(), es + more).w;
    assert AssocOk(w, a, w.assocs[a]);
  }

  /** Once an association is closed and all its goroutines have finished it holds no
      slot: it dials nothing, and each of its connections has given its slot back. */
  lemma ClosedHoldsNothing(es: seq<Event>, a: Aid)
    requires var s := RunAll(Init(), es);
             && IsClosed(s.w, a)
             && forall t | t in s.pcs && s.pcs[t].a == a :: s.pcs[t].Done?
    ensures var s := RunAll(Init(), es);
            && (forall t | t in Dialers(s.pcs) :: s.pcs[t].a != a)
            && (forall u | u in Live(s.w.conns) :: s.w.conns[u].owner != a)
  {
    RunKeepsInv(es);
    var s := RunAll(Init(), es);
    assert AssocOk(s.w, a, s.w.assocs[a]);
    forall u | u in s.w.conns && s.w.conns[u].owner == a
      ensures s.w.conns[u].released
    {
      assert Kept(s.w, s.pcs, u);
    }
  }

  // ---- What a datagram finds in an association's map still holds its slot.

  // The connections this goroutine can name.
  function Refs(pc: PC): set<Uid> {
    if pc.FirstWrite? || pc.Relay? || pc.Remove? then {pc.u} else Owned(pc)
  }

  ghost predicate InMap(w: World, u: Uid)
    requires u in w.conns
  {
    var c := w.conns[u];
    c.owner in w.assocs && c.dst in w.assocs[c.owner].upstreams && w.assocs[c.owner].upstreams[c.dst] == u
  }

  ghost predicate LiveIfInMap(w: World, u: Uid)
    requires u in w.conns
  {
    InMap(w, u) ==> !w.conns[u].released
  }

  // What a goroutine is bound to close is in no map.
  ghost predicate Apart(w: World, pc: PC) {
    forall u | u in Owned(pc) :: u in w.conns && !InMap(w, u)
  }

  // A connection about to be inserted is known to nobody else.
  ghost predicate PrivateTo(w: World, pcs: map<Tid, PC>, t: Tid, u: Uid) {
    && u in w.conns && !w.conns[u].released
    && forall o | o in pcs && o != t :: u !in Refs(pcs[o])
  }

  ghost predicate ThreadApart(w: World, pcs: map<Tid, PC>, t: Tid, pc: PC) {
    Apart(w, pc) && (pc.Insert? ==> PrivateTo(w, pcs, t, pc.u))
  }

  ghost predicate MapsOk(s: State) {
    && (forall u | u in s.w.conns :: LiveIfInMap(s.w, u))
    && (forall t | t in s.pcs :: ThreadApart(s.w, s.pcs, t, s.pcs[t]))
  }

  lemma ActOnConn(w: World, pc: PC, ok: bool, pick: Uid, u: Uid)
    requires ThreadOk(w, pc) && u in w.conns && w.next !in w.conns
    ensures var (w', pc') := Act(w, pc, ok, pick);
            && u in w'.conns
            && (InMap(w', u) ==> InMap(w, u) || (pc.Insert? && pc.u == u && pc'.FirstWrite?))
            && (w'.conns[u].released ==> w.conns[u].released || u in Owned(pc))
  {
  }

  lemma ActRefs(w: World, pc: PC, ok: bool, pick: Uid, u: Uid)
    requires ThreadOk(w, pc) && AssocOk(w, pc.a, w.assocs[pc.a])
    requires u in Refs(Act(w, pc, ok, pick).1)
    ensures u in Refs(pc) || (pc.Dial? && u == w.next) || (pc.CloseAssoc? && u in w.conns && InMap(w, u))
  {
    if pc.CloseAssoc? {
      var dst :| dst in w.assocs[pc.a].upstreams && w.assocs[pc.a].upstreams[dst] == u;
    }
  }

  lemma ActApart(w: World, pc: PC, ok: bool, pick: Uid)
    requires ThreadOk(w, pc) && AssocOk(w, pc.a, w.assocs[pc.a]) && w.next !in w.conns
    requires Apart(w, pc)
    ensures var (w', pc') := Act(w, pc, ok, pick); Apart(w', pc')
  {
    var (w', pc') := Act(w, pc, ok, pick);
    forall u | u in Owned(pc')
      ensures u in w'.conns && !InMap(w', u)
    {
      if u in w.conns {
        ActOnConn(w, pc, ok, pick, u);
      }
    }
  }

  lemma ActKeepsPrivate(s: State, t: Tid, ok: bool, pick: Uid, o: Tid)
    requires Named(s.w, s.pcs) && MapsOk(s) && t in s.pcs && o in s.pcs && o != t && s.pcs[o].Insert?
    ensures var (w', pc') := Act(s.w, s.pcs[t], ok, pick); PrivateTo(w', s.pcs[t := pc'], o, s.pcs[o].u)
  {
    var u, pc := s.pcs[o].u, s.pcs[t];
    var pc' := Act(s.w, pc, ok, pick).1;
    assert ThreadApart(s.w, s.pcs, o, s.pcs[o]) && ThreadOk(s.w, pc) && AssocOk(s.w, pc.a, s.w.assocs[pc.a]);
    assert u in Owned(s.pcs[o]) && !InMap(s.w, u) && u !in Refs(pc);
    ActOnConn(s.w, pc, ok, pick, u);
    if u in Refs(pc') {
      ActRefs(s.w, pc, ok, pick, u);
    }
  }

  lemma ActKeepsApart(s: State, t: Tid, ok: bool, pick: Uid, o: Tid)
    requires Named(s.w, s.pcs) && MapsOk(s) && t in s.pcs && o in s.pcs && o != t
    ensures var w' := Act(s.w, s.pcs[t], ok, pick).0; Apart(w', s.pcs[o])
  {
    assert ThreadApart(s.w, s.pcs, o, s.pcs[o]) && ThreadApart(s.w, s.pcs, t, s.pcs[t]);
    forall u | u in Owned(s.pcs[o])
      ensures var w' := Act(s.w, s.pcs[t], ok, pick).0; u in w'.conns && !InMap(w', u)
    {
      ActOnConn(s.w, s.pcs[t], ok, pick, u);
    }
  }

  lemma ActKeepsLive(s: State, t: Tid, ok: bool, pick: Uid, u: Uid)
    requires Named(s.w, s.pcs) && MapsOk(s) && t in s.pcs && u in Act(s.w, s.pcs[t], ok, pick).0.conns
    ensures LiveIfInMap(Act(s.w, s.pcs[t], ok, pick).0, u)
  {
    assert ThreadApart(s.w, s.pcs, t, s.pcs[t]);
    if u in s.w.conns {
      assert LiveIfInMap(s.w, u);
      ActOnConn(s.w, s.pcs[t], ok, pick, u);
    }
  }

  lemma NewIsPrivate(s: State, t: Tid, ok: bool, pick: Uid)
    requires Named(s.w, s.pcs) && MapsOk(s) && t in s.pcs
    ensures var (w', pc') := Act(s.w, s.pcs[t], ok, pick);
            pc'.Insert? ==> PrivateTo(w', s.pcs[t := pc'], t, pc'.u)
  {
    forall o | o in s.pcs
      ensures s.w.next !in Refs(s.pcs[o])
    {
      assert ThreadOk(s.w, s.pcs[o]);
    }
  }

  lemma ActKeepsMaps(s: State, t: Tid, ok: bool, pick: Uid)
    requires Named(s.w, s.pcs) && MapsOk(s) && t in s.pcs
    ensures var (w', pc') := Act(s.w, s.pcs[t], ok, pick); MapsOk(State(w', s.pcs[t := pc']))
  {
    var (w', pc') := Act(s.w, s.pcs[t], ok, pick);
    var pcs' := s.pcs[t := pc'];
    forall u | u in w'.conns
      ensures LiveIfInMap(w', u)
    {
      ActKeepsLive(s, t, ok, pick, u);
    }
    forall o | o in pcs'
      ensures ThreadApart(w', pcs', o, pcs'[o])
    {
      if o == t {
        assert ThreadApart(s.w, s.pcs, t, s.pcs[t]) && ThreadOk(s.w, s.pcs[t]);
        assert AssocOk(s.w, s.pcs[t].a, s.w.assocs[s.pcs[t].a]);
        ActApart(s.w, s.pcs[t], ok, pick);
        NewIsPrivate(s, t, ok, pick);
      } else {
        ActKeepsApart(s, t, ok, pick, o);
        if s.pcs[o].Insert? {
          ActKeepsPrivate(s, t, ok, pick, o);
        }
      }
    }
  }

  lemma ArrivalKeepsMaps(s: State, t: Tid, pc: PC)
    requires MapsOk(s) && t !in s.pcs && Refs(pc) == {} && !pc.Insert?
    ensures MapsOk(s.(pcs := s.pcs[t := pc]))
  {
    var pcs' := s.pcs[t := pc];
    forall o | o in pcs'
      ensures ThreadApart(s.w, pcs', o, pcs'[o])
    {
      assert o != t ==> ThreadApart(s.w, s.pcs, o, s.pcs[o]);
    }
  }

  lemma AssociateKeepsMaps(s: State, a: Aid)
    requires Named(s.w, s.pcs) && MapsOk(s) && a !in s.w.assocs
    ensures MapsOk(Step(s, Associate(a)))
  {
    var w' := Step(s, Associate(a)).w;
    forall u | u in s.w.conns
      ensures InMap(w', u) ==> InMap(s.w, u)
    {
    }
    assert forall u | u in s.w.conns :: LiveIfInMap(s.w, u) ==> LiveIfInMap(w', u);
    forall o | o in s.pcs
      ensures ThreadApart(w', s.pcs, o, s.pcs[o])
    {
      assert ThreadApart(s.w, s.pcs, o, s.pcs[o]);
    }
  }

  lemma StepKeepsMaps(s: State, e: Event)
    requires Named(s.w, s.pcs) && MapsOk(s)
    ensures MapsOk(Step(s, e))
  {
    match e
    case Associate(a) => if a !in s.w.assocs { AssociateKeepsMaps(s, a); }
    case Datagram(t, a, dst) => if t !in s.pcs && a in s.w.assocs { ArrivalKeepsMaps(s, t, Lookup(a, dst)); }
    case Close(t, a) => if t !in s.pcs && a in s.w.assocs { ArrivalKeepsMaps(s, t, CloseAssoc(a)); }
    case Run(t, ok, u) => if t in s.pcs && s.pcs[t].a in s.w.assocs { ActKeepsMaps(s, t, ok, u); }
  }

  lemma {:induction false} RunKeepsMaps(es: seq<Event>)
    ensures MapsOk(RunAll(Init(), es))
  {
    if es != [] {
      RunKeepsMaps(es[..|es| - 1]);
      RunKeepsInv(es[..|es| - 1]);
      StepKeepsMaps(RunAll(Init(), es[..|es| - 1]), es[|es| - 1]);
    }
  }

  /** An upstream found in an association's map is that association's own connection to
      that destination, and it still holds its slot. */
  lemma FoundUpstreamIsLive(es: seq<Event>, a: Aid, dst: Dst)
    requires var w := RunAll(Init(), es).w; a in w.assocs && dst in w.assocs[a].upstreams
    ensures var w := RunAll(Init(), es).w;
            w.assocs[a].upstreams[dst] in w.conns && w.conns[w.assocs[a].upstreams[dst]] == Conn(a, dst, false)
  {
    RunKeepsInv(es);
    RunKeepsMaps(es);
    var w := RunAll(Init(), es).w;
    assert AssocOk(w, a, w.assocs[a]);
    assert LiveIfInMap(w, w.assocs[a].upstreams[dst]);
  }

  // ---- When a write on an inserted upstream still has its slot.

  // The goroutine that inserted `u`, until it removes it again.
  predicate Serves(pc: PC, u: Uid) {
    (pc.FirstWrite? || pc.Relay? || pc.Remove?) && pc.u == u
  }

  predicate IsOpen(w: World, a: Aid) {
    a in w.assocs && !w.assocs[a].closed
  }

  ghost predicate ServedOk(w: World, pcs: map<Tid, PC>, t: Tid, u: Uid) {
    && u in w.conns && (IsOpen(w, w.conns[u].owner) ==> InMap(w, u))
    && forall o | o in pcs && o != t :: !Serves(pcs[o], u)
  }

  ghost predicate AllServedOk(s: State) {
    forall t | t in s.pcs && (s.pcs[t].FirstWrite? || s.pcs[t].Relay? || s.pcs[t].Remove?) ::
      ServedOk(s.w, s.pcs, t, s.pcs[t].u)
  }

  lemma ActOnOpenConn(w: World, pc: PC, ok: bool, pick: Uid, u: Uid)
    requires ThreadOk(w, pc) && u in w.conns && w.next !in w.conns && InMap(w, u)
    requires pc.Remove? ==> pc.u != u
    ensures var w' := Act(w, pc, ok, pick).0; u in w'.conns && (IsOpen(w', w'.conns[u].owner) ==> InMap(w', u))
  {
  }

  // The goroutine that steps.
  lemma ActKeepsOwnService(s: State, t: Tid, ok: bool, pick: Uid, u: Uid)
    requires Named(s.w, s.pcs) && MapsOk(s) && AllServedOk(s) && t in s.pcs
    requires Serves(Act(s.w, s.pcs[t], ok, pick).1, u)
    ensures var (w', pc') := Act(s.w, s.pcs[t], ok, pick); ServedOk(w', s.pcs[t := pc'], t, u)
  {
    assert ThreadApart(s.w, s.pcs, t, s.pcs[t]) && ThreadOk(s.w, s.pcs[t]);
    assert s.pcs[t].Insert? || ServedOk(s.w, s.pcs, t, u);
  }

  // The goroutines that do not.
  lemma ActKeepsService(s: State, t: Tid, ok: bool, pick: Uid, o: Tid, u: Uid)
    requires Named(s.w, s.pcs) && MapsOk(s) && AllServedOk(s) && t in s.pcs
    requires o in s.pcs && o != t && Serves(s.pcs[o], u)
    ensures var (w', pc') := Act(s.w, s.pcs[t], ok, pick); ServedOk(w', s.pcs[t := pc'], o, u)
  {
    assert ServedOk(s.w, s.pcs, o, u) && ThreadOk(s.w, s.pcs[t]) && ThreadApart(s.w, s.pcs, t, s.pcs[t]);
    ActGrows(s.w, s.pcs[t], ok, pick);
    if InMap(s.w, u) {
      ActOnOpenConn(s.w, s.pcs[t], ok, pick, u);
    }
  }

  lemma StepKeepsServed(s: State, e: Event)
    requires Named(s.w, s.pcs) && MapsOk(s) && AllServedOk(s)
    ensures AllServedOk(Step(s, e))
  {
    var s' := Step(s, e);
    forall o | o in s'.pcs && (s'.pcs[o].FirstWrite? || s'.pcs[o].Relay? || s'.pcs[o].Remove?)
      ensures ServedOk(s'.w, s'.pcs, o, s'.pcs[o].u)
    {
      if e.Run? && e.t in s.pcs && s.pcs[e.t].a in s.w.assocs {
        if o == e.t {
          ActKeepsOwnService(s, o, e.ok, e.u, s'.pcs[o].u);
        } else {
          ActKeepsService(s, e.t, e.ok, e.u, o, s.pcs[o].u);
        }
      } else {
        assert ServedOk(s.w, s.pcs, o, s.pcs[o].u);
      }
    }
  }

  lemma {:induction false} RunKeepsServed(es: seq<Event>)
    ensures AllServedOk(RunAll(Init(), es))
  {
    if es != [] {
      RunKeepsServed(es[..|es| - 1]);
      RunKeepsInv(es[..|es| - 1]);
      RunKeepsMaps(es[..|es| - 1]);
      StepKeepsServed(RunAll(Init(), es[..|es| - 1]), es[|es| - 1]);
    }
  }

  /** As long as its association is open, the goroutine that inserted an upstream writes to
      it, and reads from it, while it holds its slot. */
  lemma ServedUpstreamIsLive(es: seq<Event>, t: Tid)
    requires var s := RunAll(Init(), es);
             t in s.pcs && (s.pcs[t].FirstWrite? || s.pcs[t].Relay?) && IsOpen(s.w, s.pcs[t].a)
    ensures var s := RunAll(Init(), es);
            s.pcs[t].u in s.w.conns && s.w.conns[s.pcs[t].u] == Conn(s.pcs[t].a, s.pcs[t].dst, false)
  {
    RunKeepsInv(es);
    RunKeepsMaps(es);
    RunKeepsServed(es);
    var s := RunAll(Init(), es);
    assert ThreadOk(s.w, s.pcs[t]) && ServedOk(s.w, s.pcs, t, s.pcs[t].u);
    assert LiveIfInMap(s.w, s.pcs[t].u);
  }

  // While an upstream is served, only a close can have taken it, one at most, and it then
  // still holds its slot.
  ghost predicate TakenOk(w: World, pcs: map<Tid, PC>, t: Tid, u: Uid) {
    && u in w.conns
    && (forall o | o in pcs && o != t && u in Owned(pcs[o]) :: pcs[o].CloseEach? && !w.conns[u].released)
    && (forall o, o' | o in pcs && o' in pcs && o != t && o' != t && u in Owned(pcs[o]) && u in Owned(pcs[o']) ::
          o == o')
  }

  ghost predicate AllTakenOk(s: State) {
    forall t | t in s.pcs && (s.pcs[t].FirstWrite? || s.pcs[t].Relay? || s.pcs[t].Remove?) ::
      TakenOk(s.w, s.pcs, t, s.pcs[t].u)
  }

  // The goroutine that serves steps.
  lemma ActKeepsOwnTaken(s: State, t: Tid, ok: bool, pick: Uid, u: Uid)
    requires Named(s.w, s.pcs) && MapsOk(s) && AllTakenOk(s) && t in s.pcs
    requires Serves(Act(s.w, s.pcs[t], ok, pick).1, u)
    ensures var (w', pc') := Act(s.w, s.pcs[t], ok, pick); TakenOk(w', s.pcs[t := pc'], t, u)
  {
    assert ThreadApart(s.w, s.pcs, t, s.pcs[t]) && ThreadOk(s.w, s.pcs[t]);
    if s.pcs[t].Insert? {
      assert PrivateTo(s.w, s.pcs, t, u);
    } else {
      assert TakenOk(s.w, s.pcs, t, u);
    }
  }

  // What a step of another goroutine owns of a served upstream: a close takes it from the
  // map, or had it already and keeps it until it closes it.
  lemma ActTakes(s: State, x: Tid, ok: bool, pick: Uid, t: Tid, u: Uid)
    requires Named(s.w, s.pcs) && MapsOk(s) && AllServedOk(s) && AllTakenOk(s)
    requires x in s.pcs && t in s.pcs && x != t && Serves(s.pcs[t], u)
    requires u in Owned(Act(s.w, s.pcs[x], ok, pick).1)
    ensures var (w', pc') := Act(s.w, s.pcs[x], ok, pick);
            pc'.CloseEach? && u in w'.conns && !w'.conns[u].released
    ensures u in Owned(s.pcs[x]) || InMap(s.w, u)
  {
    var pc := s.pcs[x];
    assert ThreadOk(s.w, pc) && ThreadApart(s.w, s.pcs, x, pc) && AssocOk(s.w, pc.a, s.w.assocs[pc.a]);
    assert ServedOk(s.w, s.pcs, t, u) && TakenOk(s.w, s.pcs, t, u) && LiveIfInMap(s.w, u);
    ActRefs(s.w, pc, ok, pick, u);
    assert u in Refs(pc) ==> u in Owned(pc);
  }

  // The other owners of a served upstream keep it as it is.
  lemma ActLeaves(s: State, x: Tid, ok: bool, pick: Uid, t: Tid, u: Uid, o: Tid)
    requires Named(s.w, s.pcs) && MapsOk(s) && AllServedOk(s) && AllTakenOk(s)
    requires x in s.pcs && t in s.pcs && x != t && Serves(s.pcs[t], u)
    requires o in s.pcs && o != x && o != t && u in Owned(s.pcs[o])
    ensures var (w', pc') := Act(s.w, s.pcs[x], ok, pick);
            && s.pcs[o].CloseEach? && u in w'.conns && !w'.conns[u].released && u !in Owned(pc')
  {
    assert ThreadOk(s.w, s.pcs[x]) && ThreadApart(s.w, s.pcs, o, s.pcs[o]) && TakenOk(s.w, s.pcs, t, u);
    ActOnConn(s.w, s.pcs[x], ok, pick, u);
    if u in Owned(Act(s.w, s.pcs[x], ok, pick).1) {
      ActTakes(s, x, ok, pick, t, u);
    }
  }

  lemma ActKeepsTaken(s: State, x: Tid, ok: bool, pick: Uid, t: Tid, u: Uid)
    requires Named(s.w, s.pcs) && MapsOk(s) && AllServedOk(s) && AllTakenOk(s)
    requires x in s.pcs && t in s.pcs && x != t && Serves(s.pcs[t], u)
    ensures var (w', pc') := Act(s.w, s.pcs[x], ok, pick); TakenOk(w', s.pcs[x := pc'], t, u)
  {
    var (w', pc') := Act(s.w, s.pcs[x], ok, pick);
    var pcs' := s.pcs[x := pc'];
    assert TakenOk(s.w, s.pcs, t, u) && ThreadOk(s.w, s.pcs[x]);
    ActGrows(s.w, s.pcs[x], ok, pick);
    forall o | o in pcs' && o != t && u in Owned(pcs'[o])
      ensures pcs'[o].CloseEach? && !w'.conns[u].released && (o != x ==> u !in Owned(pc'))
    {
      if o == x {
        ActTakes(s, x, ok, pick, t, u);
      } else {
        ActLeaves(s, x, ok, pick, t, u, o);
      }
    }
  }

  lemma RunStepKeepsTaken(s: State, x: Tid, ok: bool, pick: Uid)
    requires Named(s.w, s.pcs) && MapsOk(s) && AllServedOk(s) && AllTakenOk(s) && x in s.pcs
    ensures var (w', pc') := Act(s.w, s.pcs[x], ok, pick); AllTakenOk(State(w', s.pcs[x := pc']))
  {
    var (w', pc') := Act(s.w, s.pcs[x], ok, pick);
    var pcs' := s.pcs[x := pc'];
    forall t | t in pcs' && (pcs'[t].FirstWrite? || pcs'[t].Relay? || pcs'[t].Remove?)
      ensures TakenOk(w', pcs', t, pcs'[t].u)
    {
      if t == x {
        ActKeepsOwnTaken(s, t, ok, pick, pcs'[t].u);
      } else {
        ActKeepsTaken(s, x, ok, pick, t, s.pcs[t].u);
      }
    }
  }

  lemma ArrivalKeepsTaken(s: State, t: Tid, pc: PC)
    requires AllTakenOk(s) && t !in s.pcs && Refs(pc) == {}
    ensures AllTakenOk(State(s.w, s.pcs[t := pc]))
  {
    forall o | o in s.pcs && (s.pcs[o].FirstWrite? || s.pcs[o].Relay? || s.pcs[o].Remove?)
      ensures TakenOk(s.w, s.pcs[t := pc], o, s.pcs[o].u)
    {
      assert TakenOk(s.w, s.pcs, o, s.pcs[o].u);
    }
  }

  lemma StepKeepsTaken(s: State, e: Event)
    requires Named(s.w, s.pcs) && MapsOk(s) && AllServedOk(s) && AllTakenOk(s)
    ensures AllTakenOk(Step(s, e))
  {
    match e
    case Associate(a) => if a !in s.w.assocs { AssociateKeepsTaken(s, a); }
    case Datagram(t, a, dst) => if t !in s.pcs && a in s.w.assocs { ArrivalKeepsTaken(s, t, Lookup(a, dst)); }
    case Close(t, a) => if t !in s.pcs && a in s.w.assocs { ArrivalKeepsTaken(s, t, CloseAssoc(a)); }
    case Run(t, ok, u) => if t in s.pcs && s.pcs[t].a in s.w.assocs { RunStepKeepsTaken(s, t, ok, u); }
  }

  lemma AssociateKeepsTaken(s: State, a: Aid)
    requires AllTakenOk(s) && a !in s.w.assocs
    ensures AllTakenOk(Step(s, Associate(a)))
  {
    var w' := Step(s, Associate(a)).w;
    forall o | o in s.pcs && (s.pcs[o].FirstWrite? || s.pcs[o].Relay? || s.pcs[o].Remove?)
      ensures TakenOk(w', s.pcs, o, s.pcs[o].u)
    {
      assert TakenOk(s.w, s.pcs, o, s.pcs[o].u);
    }
  }

  lemma {:induction false} RunKeepsTaken(es: seq<Event>)
    ensures AllTakenOk(RunAll(Init(), es))
  {
    if es != [] {
      RunKeepsTaken(es[..|es| - 1]);
      RunKeepsInv(es[..|es| - 1]);
      RunKeepsMaps(es[..|es| - 1]);
      RunKeepsServed(es[..|es| - 1]);
      StepKeepsTaken(RunAll(Init(), es[..|es| - 1]), es[|es| - 1]);
    }
  }

  // Some close has taken the connection and not reached it yet.
  ghost predicate CloseIsComing(pcs: map<Tid, PC>, u: Uid) {
    exists k :: k in pcs && pcs[k].CloseEach? && u in pcs[k].us
  }

  // On a closed association whatever still holds its slot is owned by somebody.
  lemma LiveIsTaken(w: World, pcs: map<Tid, PC>, t: Tid, u: Uid)
    requires Tracked(w, pcs) && t in pcs && Serves(pcs[t], u) && TakenOk(w, pcs, t, u)
    requires !IsOpen(w, pcs[t].a) && !w.conns[u].released
    ensures CloseIsComing(pcs, u)
  {
    var a := pcs[t].a;
    assert ThreadOk(w, pcs[t]) && AssocOk(w, a, w.assocs[a]) && Kept(w, pcs, u);
    assert !InUpstreams(w, a, u);
    var o :| o in pcs && pcs[o].a == a && u in Owned(pcs[o]);
  }

  lemma ComingIsLive(w: World, pcs: map<Tid, PC>, t: Tid, u: Uid)
    requires t in pcs && Serves(pcs[t], u) && TakenOk(w, pcs, t, u) && CloseIsComing(pcs, u)
    ensures !w.conns[u].released
  {
    var k :| k in pcs && pcs[k].CloseEach? && u in pcs[k].us;
    assert u in Owned(pcs[k]);
  }

  lemma ServedIsTaken(es: seq<Event>, t: Tid)
    requires var s := RunAll(Init(), es); t in s.pcs && (s.pcs[t].FirstWrite? || s.pcs[t].Relay?)
    ensures var s := RunAll(Init(), es); Tracked(s.w, s.pcs) && TakenOk(s.w, s.pcs, t, s.pcs[t].u)
  {
    RunKeepsInv(es);
    RunKeepsTaken(es);
  }

  /** The exact condition under which the goroutine that inserted an upstream writes to it,
      or reads from it, while it holds its slot: the association is open, or a close has
      taken the upstream and has not reached it yet. */
  lemma ServedUpstreamIsLiveIff(es: seq<Event>, t: Tid)
    requires var s := RunAll(Init(), es); t in s.pcs && (s.pcs[t].FirstWrite? || s.pcs[t].Relay?)
    ensures var s := RunAll(Init(), es);
            var u := s.pcs[t].u;
            && u in s.w.conns
            && (!s.w.conns[u].released <==> IsOpen(s.w, s.pcs[t].a) || CloseIsComing(s.pcs, u))
  {
    ServedIsTaken(es, t);
    var s := RunAll(Init(), es);
    var u := s.pcs[t].u;
    if IsOpen(s.w, s.pcs[t].a) {
      ServedUpstreamIsLive(es, t);
    } else if CloseIsComing(s.pcs, u) {
      ComingIsLive(s.w, s.pcs, t, u);
    } else if !s.w.conns[u].released {
      LiveIsTaken(s.w, s.pcs, t, u);
    }
  }

  // A close that runs alone up to the connection `u`.
  lemma CloseRuns(s: State, k: Tid, a: Aid, u: Uid)
    requires k !in s.pcs && IsOpen(s.w, a) && u in s.w.assocs[a].upstreams.Values && u in s.w.conns
    ensures var s' := Step(Step(Step(s, Close(k, a)), Run(k, true, u)), Run(k, true, u));
            && u in s'.w.conns && s'.w.conns[u].released
            && forall t | t in s.pcs :: t in s'.pcs && s'.pcs[t] == s.pcs[t]
  {
    var s1 := Step(s, Close(k, a));
    var s2 := Step(s1, Run(k, true, u));
    assert s2.pcs == s.pcs[k := CloseEach(a, s.w.assocs[a].upstreams.Values)] && s2.w.conns == s.w.conns;
  }

  /** Not beyond that: from every state in which a first write is pending on an open
      association, a close can give the slot back before the write. */
  lemma CloseOvertakesFirstWrite(es: seq<Event>, t: Tid, k: Tid)
    requires var s := RunAll(Init(), es);
             t in s.pcs && s.pcs[t].FirstWrite? && IsOpen(s.w, s.pcs[t].a) && k !in s.pcs
    ensures var s := RunAll(Init(), es);
            var u := s.pcs[t].u;
            var s' := RunAll(Init(), es + [Close(k, s.pcs[t].a)] + [Run(k, true, u)] + [Run(k, true, u)]);
            t in s'.pcs && s'.pcs[t] == s.pcs[t] && u in s'.w.conns && s'.w.conns[u].released
  {
    RunKeepsInv(es);
    RunKeepsServed(es);
    var s := RunAll(Init(), es);
    var a, u := s.pcs[t].a, s.pcs[t].u;
    assert ThreadOk(s.w, s.pcs[t]) && ServedOk(s.w, s.pcs, t, u);
    assert s.w.conns[u].dst in s.w.assocs[a].upstreams;
    var e1, e2 := Close(k, a), Run(k, true, u);
    RunOneMore(es, e1);
    RunOneMore(es + [e1], e2);
    RunOneMore(es + [e1] + [e2], e2);
    CloseRuns(s, k, a, u);
  }

  lemma RunOneMore(es: seq<Event>, e: Event)
    ensures RunAll(Init(), es + [e]) == Step(RunAll(Init(), es), e)
  {
    assert (es + [e])[..|es + [e]| - 1] == es;
  }
}
