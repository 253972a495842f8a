/**
  The life of one UDP flow over the slots of UdpSlots (cmd/socks_adapter.go): what a
  datagram to a new destination does when nothing interrupts it, how the flow ends, and
  that every slot in use has a goroutine bound to give it back.
 */
module UdpFlows {
  import opened UdpSlots

  // Goroutine `t` alone, its steps answered one after the other.
  function Steps(s: State, t: Tid, oks: seq<bool>): State
    decreases |oks|
  {
    if oks == [] then s else Steps(Step(s, Run(t, oks[0], 0)), t, oks[1..])
  }

  lemma OneStep(s: State, t: Tid, ok: bool, rest: seq<bool>)
    ensures Steps(s, t, [ok] + rest) == Steps(Step(s, Run(t, ok, 0)), t, rest)
  {
    assert ([ok] + rest)[1..] == rest;
  }

  lemma NoStep(s: State, t: Tid)
    ensures Steps(s, t, []) == s
  {
  }

  // A datagram for a destination that its open association does not know, with room.
  predicate NewFlow(s: State, t: Tid) {
    && t in s.pcs && s.pcs[t].Lookup? && IsOpen(s.w, s.pcs[t].a)
    && s.pcs[t].dst !in s.w.assocs[s.pcs[t].a].upstreams && HasRoom(s.w.sem)
  }

  // The state with goroutine `t` moved on.
  function Moved(s: State, w: World, t: Tid, pc: PC): State {
    State(w, s.pcs[t := pc])
  }

  lemma DialStarts(s: State, t: Tid, rest: seq<bool>)
    requires NewFlow(s, t)
    ensures Steps(s, t, [true] + ([true] + rest))
            == Steps(Moved(s, s.w.(sem := s.w.sem + 1), t, Dial(s.pcs[t].a, s.pcs[t].dst)), t, rest)
  {
    var s1 := Step(s, Run(t, true, 0));
    OneStep(s, t, true, [true] + rest);
    OneStep(s1, t, true, rest);
    assert s1 == Moved(s, s.w, t, Acquire(s.pcs[t].a, s.pcs[t].dst));
    assert Step(s1, Run(t, true, 0)).pcs
        == s.pcs[t := Dial(s.pcs[t].a, s.pcs[t].dst)];
  }

  /** Its dial succeeds: the flow takes one slot, its connection is the association's for
      that destination, and the goroutine relays. Nothing else changes. */
  lemma FlowStarts(s: State, t: Tid)
    requires NewFlow(s, t)
    ensures var a, dst, u := s.pcs[t].a, s.pcs[t].dst, s.w.next;
            var assoc := s.w.assocs[a].(upstreams := s.w.assocs[a].upstreams[dst := u]);
            Steps(s, t, [true] + ([true] + ([true] + ([true] + ([true] + [])))))
            == Moved(s, World(s.w.sem + 1, s.w.misses, s.w.assocs[a := assoc],
                              s.w.conns[u := Conn(a, dst, false)], u + 1), t, Relay(a, dst, u))
  {
    var a, dst, u := s.pcs[t].a, s.pcs[t].dst, s.w.next;
    DialStarts(s, t, [true] + ([true] + ([true] + [])));
    var s2 := Moved(s, s.w.(sem := s.w.sem + 1), t, Dial(a, dst));
    var s3, s4, s5 := Step(s2, Run(t, true, 0)), FlowInserted(s, t), FlowWritten(s, t);
    OneStep(s2, t, true, [true] + ([true] + []));
    assert s3.pcs == s.pcs[t := UdpSlots.Insert(a, dst, u)];
    OneStep(s3, t, true, [true] + []);
    assert Step(s3, Run(t, true, 0)) == s4 by {
      assert Step(s3, Run(t, true, 0)).pcs == s4.pcs;
    }
    OneStep(s4, t, true, []);
    assert Step(s4, Run(t, true, 0)) == s5 by {
      assert Step(s4, Run(t, true, 0)).pcs == s5.pcs;
    }
    NoStep(s5, t);
  }

  function FlowInserted(s: State, t: Tid): State
    requires NewFlow(s, t)
  {
    var a, dst, u := s.pcs[t].a, s.pcs[t].dst, s.w.next;
    var assoc := s.w.assocs[a].(upstreams := s.w.assocs[a].upstreams[dst := u]);
    Moved(s, World(s.w.sem + 1, s.w.misses, s.w.assocs[a := assoc], s.w.conns[u := Conn(a, dst, false)], u + 1),
          t, FirstWrite(a, dst, u))
  }

  function FlowWritten(s: State, t: Tid): State
    requires NewFlow(s, t)
  {
    FlowInserted(s, t).(pcs := s.pcs[t := Relay(s.pcs[t].a, s.pcs[t].dst, s.w.next)])
  }

  /** Its dial fails: the slot is given back and the datagram leaves no trace. */
  lemma FlowFails(s: State, t: Tid)
    requires NewFlow(s, t)
    ensures Steps(s, t, [true] + ([true] + ([false] + ([true] + [])))) == Moved(s, s.w, t, Done(s.pcs[t].a))
  {
    var a, dst := s.pcs[t].a, s.pcs[t].dst;
    DialStarts(s, t, [false] + ([true] + []));
    var s2 := Moved(s, s.w.(sem := s.w.sem + 1), t, Dial(a, dst));
    var s3 := Step(s2, Run(t, false, 0));
    OneStep(s2, t, false, [true] + []);
    OneStep(s3, t, true, []);
    assert s3.pcs == s.pcs[t := GiveBack(a)];
    var s4 := Step(s3, Run(t, true, 0));
    NoStep(s4, t);
    assert s4.pcs == s.pcs[t := Done(a)];
  }

  /** At the limit, and for a destination already served, a datagram takes nothing. */
  lemma NoNewFlow(s: State, t: Tid, ok: bool)
    requires t in s.pcs && s.pcs[t].Lookup? && s.pcs[t].a in s.w.assocs
    requires !NewFlow(s, t)
    ensures Steps(s, t, [ok] + ([ok] + [])) == Moved(s, s.w, t, Done(s.pcs[t].a))
  {
    var s1 := Step(s, Run(t, ok, 0));
    var s2 := Step(s1, Run(t, ok, 0));
    OneStep(s, t, ok, [ok] + []);
    OneStep(s1, t, ok, []);
    NoStep(s2, t);
    assert s2.pcs == s.pcs[t := Done(s.pcs[t].a)];
  }

  // The relay of an open association's upstream, when it can no longer be read.
  lemma RelayStops(s: State, t: Tid)
    requires t in s.pcs && s.pcs[t].Relay? && IsOpen(s.w, s.pcs[t].a) && s.w.sem > 0
    requires var a, dst, u := s.pcs[t].a, s.pcs[t].dst, s.pcs[t].u;
             && u in s.w.conns && s.w.conns[u] == Conn(a, dst, false)
             && dst in s.w.assocs[a].upstreams && s.w.assocs[a].upstreams[dst] == u
    ensures Ended(s, Steps(s, t, [false] + ([false] + ([false] + []))), t)
  {
    var a, dst, u := s.pcs[t].a, s.pcs[t].dst, s.pcs[t].u;
    var s1 := Step(s, Run(t, false, 0));
    var s2 := Step(s1, Run(t, false, 0));
    var s3 := Step(s2, Run(t, false, 0));
    OneStep(s, t, false, [false] + ([false] + []));
    OneStep(s1, t, false, [false] + []);
    OneStep(s2, t, false, []);
    NoStep(s3, t);
    assert s1.pcs == s.pcs[t := Remove(a, dst, u)] && s1.w == s.w;
    assert s2.pcs == s.pcs[t := RemoveClose(a, u)] && s2.w == SetAssoc(s.w, a, Removed(s.w.assocs[a], dst, u));
    assert s3.pcs == s.pcs[t := Done(a)];
  }

  // The flow that `t` relayed in `s` is over in `s'`, and nothing else has changed.
  predicate Ended(s: State, s': State, t: Tid)
    requires t in s.pcs && s.pcs[t].Relay? && s.pcs[t].a in s.w.assocs && s.pcs[t].u in s.w.conns && s.w.sem > 0
  {
    var a, dst, u := s.pcs[t].a, s.pcs[t].dst, s.pcs[t].u;
    && s'.pcs == s.pcs[t := Done(a)]
    && s'.w.assocs == s.w.assocs[a := s.w.assocs[a].(upstreams := s.w.assocs[a].upstreams - {dst})]
    && s'.w.conns == s.w.conns[u := s.w.conns[u].(released := true)]
    && s'.w.sem == s.w.sem - 1 && s'.w.misses == s.w.misses
  }

  /** In every run: when the upstream of an open association ends, its entry leaves the map,
      it is closed, and exactly its slot comes back. */
  lemma FlowEnds(es: seq<Event>, t: Tid)
    requires var s := RunAll(Init(), es); t in s.pcs && s.pcs[t].Relay? && IsOpen(s.w, s.pcs[t].a)
    ensures var s := RunAll(Init(), es);
            && s.pcs[t].u in s.w.conns && s.w.sem > 0
            && Ended(s, Steps(s, t, [false] + ([false] + ([false] + []))), t)
  {
    var s := RunAll(Init(), es);
    ServedUpstreamIsLive(es, t);
    RunKeepsServed(es);
    RunKeepsInv(es);
    assert ServedOk(s.w, s.pcs, t, s.pcs[t].u);
    assert s.pcs[t].u in Live(s.w.conns);
    assert Live(s.w.conns) != {} && |Live(s.w.conns)| > 0;
    RelayStops(s, t);
  }

  // ---- Every slot in use has a goroutine bound to give it back.

  ghost predicate HasServer(pcs: map<Tid, PC>, u: Uid) {
    exists t :: t in pcs && Serves(pcs[t], u)
  }

  ghost predicate MapsServed(w: World, pcs: map<Tid, PC>) {
    forall u | u in w.conns && InMap(w, u) :: HasServer(pcs, u)
  }

  lemma ActOnMap(w: World, pc: PC, ok: bool, pick: Uid, u: Uid)
    requires ThreadOk(w, pc) && w.next !in w.conns && u in Act(w, pc, ok, pick).0.conns
    requires InMap(Act(w, pc, ok, pick).0, u)
    ensures (u in w.conns && InMap(w, u)) || (pc.Insert? && Serves(Act(w, pc, ok, pick).1, u)) || u !in w.conns
  {
  }

  lemma NewNotInMap(w: World, pc: PC, ok: bool, pick: Uid, u: Uid)
    requires ThreadOk(w, pc) && AssocOk(w, pc.a, w.assocs[pc.a])
    requires u !in w.conns && u in Act(w, pc, ok, pick).0.conns
    ensures !InMap(Act(w, pc, ok, pick).0, u)
  {
  }

  lemma ServerStays(w: World, pc: PC, ok: bool, pick: Uid, u: Uid)
    requires ThreadOk(w, pc) && Serves(pc, u) && u in w.conns
    requires u in Act(w, pc, ok, pick).0.conns && InMap(Act(w, pc, ok, pick).0, u)
    ensures Serves(Act(w, pc, ok, pick).1, u)
  {
  }

  lemma ActKeepsServer(s: State, t: Tid, ok: bool, pick: Uid, u: Uid)
    requires Named(s.w, s.pcs) && MapsServed(s.w, s.pcs) && t in s.pcs
    requires var w' := Act(s.w, s.pcs[t], ok, pick).0; u in w'.conns && InMap(w', u)
    ensures HasServer(s.pcs[t := Act(s.w, s.pcs[t], ok, pick).1], u)
  {
    var pc' := Act(s.w, s.pcs[t], ok, pick).1;
    var pcs' := s.pcs[t := pc'];
    assert ThreadOk(s.w, s.pcs[t]);
    ActOnMap(s.w, s.pcs[t], ok, pick, u);
    if u !in s.w.conns {
      NewNotInMap(s.w, s.pcs[t], ok, pick, u);
    } else if InMap(s.w, u) {
      assert HasServer(s.pcs, u);
      var o :| o in s.pcs && Serves(s.pcs[o], u);
      if o == t {
        ServerStays(s.w, s.pcs[t], ok, pick, u);
      }
      assert o in pcs' && Serves(pcs'[o], u);
    } else {
      assert t in pcs' && Serves(pcs'[t], u);
    }
  }

  lemma ArrivalKeepsServers(w: World, pcs: map<Tid, PC>, t: Tid, pc: PC)
    requires MapsServed(w, pcs) && t !in pcs
    ensures MapsServed(w, pcs[t := pc])
  {
    forall u | u in w.conns && InMap(w, u)
      ensures HasServer(pcs[t := pc], u)
    {
      assert HasServer(pcs, u);
      var o :| o in pcs && Serves(pcs[o], u);
      assert o in pcs[t := pc] && Serves(pcs[t := pc][o], u);
    }
  }

  lemma StepKeepsServers(s: State, e: Event)
    requires Named(s.w, s.pcs) && MapsServed(s.w, s.pcs)
    ensures MapsServed(Step(s, e).w, Step(s, e).pcs)
  {
    var s' := Step(s, e);
    match e
    case Associate(a) =>
      forall u | u in s'.w.conns && InMap(s'.w, u)
        ensures HasServer(s.pcs, u)
      {
        assert InMap(s.w, u);
      }
    case Datagram(t, a, dst) => if t !in s.pcs { ArrivalKeepsServers(s.w, s.pcs, t, Lookup(a, dst)); }
    case Close(t, a) => if t !in s.pcs { ArrivalKeepsServers(s.w, s.pcs, t, CloseAssoc(a)); }
    case Run(t, ok, pick) =>
      if t in s.pcs && s.pcs[t].a in s.w.assocs {
        forall u | u in s'.w.conns && InMap(s'.w, u)
          ensures HasServer(s'.pcs, u)
        {
          ActKeepsServer(s, t, ok, pick, u);
        }
      }
  }

  lemma {:induction false} RunKeepsServers(es: seq<Event>)
    ensures var s := RunAll(Init(), es); MapsServed(s.w, s.pcs)
  {
    if es != [] {
      RunKeepsServers(es[..|es| - 1]);
      RunKeepsInv(es[..|es| - 1]);
      StepKeepsServers(RunAll(Init(), es[..|es| - 1]), es[|es| - 1]);
    }
  }

  // Goroutine `t` will close `u`.
  predicate WillClose(pc: PC, u: Uid) {
    Serves(pc, u) || u in Owned(pc)
  }

  /** No slot is forgotten: whoever closes and whoever relays, for every connection that
      still holds its slot some unfinished goroutine of its association will close it. */
  lemma EverySlotHasCloser(es: seq<Event>, u: Uid) returns (t: Tid)
    requires u in Live(RunAll(Init(), es).w.conns)
    ensures var s := RunAll(Init(), es); t in s.pcs && s.pcs[t].a == s.w.conns[u].owner && WillClose(s.pcs[t], u)
  {
    RunKeepsInv(es);
    RunKeepsServers(es);
    var s := RunAll(Init(), es);
    var c := s.w.conns[u];
    assert Kept(s.w, s.pcs, u);
    if IsOwned(s.pcs, c.owner, u) {
      t :| t in s.pcs && s.pcs[t].a == c.owner && u in Owned(s.pcs[t]);
    } else {
      assert AssocOk(s.w, c.owner, s.w.assocs[c.owner]);
      assert InMap(s.w, u) && HasServer(s.pcs, u);
      t :| t in s.pcs && Serves(s.pcs[t], u);
      assert ThreadOk(s.w, s.pcs[t]);
    }
  }

  /** When every goroutine has finished, all slots are free, whether or not the
      associations were ever closed. */
  lemma QuietMeansFree(es: seq<Event>)
    requires forall t | t in RunAll(Init(), es).pcs :: RunAll(Init(), es).pcs[t].Done?
    ensures RunAll(Init(), es).w.sem == 0
  {
    var s := RunAll(Init(), es);
    SlotsConserved(es);
    assert Dialers(s.pcs) == {};
    if Live(s.w.conns) != {} {
      var u :| u in Live(s.w.conns);
      var t := EverySlotHasCloser(es, u);
      assert false;
    }
  }

  // ---- And it can give the slot back.

  // A bound on the steps a goroutine takes once its dials and upstreams fail.
  function Left(pc: PC): nat {
    match pc
    case Lookup(_, _) => 9
    case Acquire(_, _) => 8
    case Dial(_, _) => 7
    case Insert(_, _, _) => 6
    case FirstWrite(_, _, _) => 5
    case Relay(_, _, _) => 4
    case Remove(_, _, _) => 3
    case RemoveClose(_, _) => 1
    case Discard(_, _) => 1
    case GiveBack(_) => 1
    case CloseAssoc(_) => 2
    case CloseEach(_, us) => |us| + 1
    case Done(_) => 0
  }

  predicate Takes(pc: PC, pick: Uid) {
    pc.CloseEach? && pc.us != {} ==> pick in pc.us
  }

  /** No goroutine waits for another one: each step, except a relay's successful read,
      brings it nearer its end, or begins to close what an association holds. */
  lemma StepsAdvance(w: World, pc: PC, ok: bool, pick: Uid)
    requires pc.a in w.assocs && !pc.Done? && Takes(pc, pick) && (pc.Relay? ==> !ok)
    ensures Left(Act(w, pc, ok, pick).1) < Left(pc) || (pc.CloseAssoc? && Act(w, pc, ok, pick).1.CloseEach?)
  {
    if pc.CloseEach? && pc.us != {} {
      assert |pc.us - {pick}| == |pc.us| - 1;
    }
  }
}
