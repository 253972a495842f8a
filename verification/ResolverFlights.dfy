/**
  Any number of goroutines inside CachingResolver.Resolve (api/resolver.go), interleaved
  at the fast-path read, at the singleflight group, around the inner query, and at the
  locked section that records its outcome.
 */
module ResolverFlights {
  import opened Options
  import opened ResolverCache

  type Tid = nat

  datatype PC =
    | FastPath(name: Name)
    | Join(name: Name)
    | Query(name: Name)                    // leads the flight: the inner resolver is asked
    | Recording(name: Name, o: Outcome)    // it has answered, the clock was read
    | Landing(name: Name, o: Outcome)      // recorded, still in the singleflight group
    | Waiting(name: Name, leader: Tid)
    | Done(name: Name, answer: Answer)

  datatype World = World(cache: Cache, log: seq<Outcome>, flights: map<Name, Tid>)

  datatype State = State(w: World, pcs: map<Tid, PC>)

  datatype Event =
    | Resolve(t: Tid, name: Name)
    | Run(t: Tid, answer: Answer, now: int, victims: set<Name>)
    | Clear

  function Init(): State {
    State(World(map[], [], map[]), map[])
  }

  // What a waiting caller sees of its leader.
  function Landed(pcs: map<Tid, PC>, pc: PC): Option<Answer> {
    if pc.Waiting? && pc.leader in pcs && pcs[pc.leader].Done? then Some(pcs[pc.leader].answer) else None
  }

  function Act(w: World, t: Tid, pc: PC, landed: Option<Answer>, e: Event, lim: Limits): (World, PC)
    requires e.Run?
  {
    match pc
    case FastPath(name) =>
      (w, if name in w.cache && Usable(w.cache[name], e.now) then Done(name, w.cache[name].answer) else Join(name))
    case Join(name) =>
      if name in w.flights then (w, Waiting(name, w.flights[name]))
      else (w.(flights := w.flights[name := t]), Query(name))
    case Query(name) => (w, Recording(name, Outcome(name, e.answer, e.now)))
    case Recording(name, o) =>
      if VictimsOk(w.cache, o.answer, e.victims, e.now, lim)
      then (w.(cache := Recorded(w.cache, o, e.victims, lim), log := w.log + [o]), Landing(name, o))
      else (w, pc)
    case Landing(name, o) => (w.(flights := w.flights - {name}), Done(name, o.answer))
    case Waiting(name, _) => (w, if landed.Some? then Done(name, landed.value) else pc)
    case Done(_, _) => (w, pc)
  }

  function Step(s: State, e: Event, lim: Limits): State {
    match e
    case Resolve(t, name) => if t in s.pcs then s else s.(pcs := s.pcs[t := FastPath(name)])
    case Run(t, _, _, _) =>
      if t !in s.pcs then s
      else var (w, pc) := Act(s.w, t, s.pcs[t], Landed(s.pcs, s.pcs[t]), e, lim); State(w, s.pcs[t := pc])
    case Clear => s.(w := s.w.(cache := map[]))
  }

  function RunAll(es: seq<Event>, lim: Limits): State {
    if es == [] then Init() else Step(RunAll(es[..|es| - 1], lim), es[|es| - 1], lim)
  }

  // ---- The invariant.

  predicate Leads(pc: PC) {
    pc.Query? || pc.Recording? || pc.Landing?
  }

  // It asks, or has its answer.
  predicate HasLed(pc: PC) {
    Leads(pc) || pc.Done?
  }

  ghost predicate WasRecorded(log: seq<Outcome>, name: Name, answer: Answer) {
    exists o :: o in log && o.name == name && o.answer == answer
  }

  // What one goroutine is entitled to.
  ghost predicate ThreadOk(w: World, pcs: map<Tid, PC>, t: Tid, pc: PC) {
    && (Leads(pc) ==> pc.name in w.flights && w.flights[pc.name] == t)
    && (pc.Recording? || pc.Landing? ==> pc.o.name == pc.name)
    && (pc.Landing? ==> pc.o in w.log)
    && (pc.Waiting? ==> pc.leader in pcs && pcs[pc.leader].name == pc.name && HasLed(pcs[pc.leader]))
    && (pc.Done? ==> WasRecorded(w.log, pc.name, pc.answer))
  }

  ghost predicate FlightOk(pcs: map<Tid, PC>, name: Name, t: Tid) {
    t in pcs && Leads(pcs[t]) && pcs[t].name == name
  }

  ghost predicate Inv(s: State, lim: Limits) {
    && Agrees(s.w.cache, s.w.log, lim)
    && (forall t: Tid | t in s.pcs :: ThreadOk(s.w, s.pcs, t, s.pcs[t]))
    && (forall name | name in s.w.flights :: FlightOk(s.pcs, name, s.w.flights[name]))
  }

  lemma ActKeepsAgreement(w: World, t: Tid, pc: PC, landed: Option<Answer>, e: Event, lim: Limits)
    requires e.Run? && Agrees(w.cache, w.log, lim)
    ensures var w' := Act(w, t, pc, landed, e, lim).0; Agrees(w'.cache, w'.log, lim) && w.log <= w'.log
  {
    if pc.Recording? {
      RecordKeepsAgreement(w.cache, w.log, pc.o, e.victims, lim);
    }
  }

  lemma CachedWasRecorded(cache: Cache, log: seq<Outcome>, name: Name, lim: Limits)
    requires Agrees(cache, log, lim) && name in cache
    ensures WasRecorded(log, name, cache[name].answer)
  {
    assert EntryAgrees(cache[name], LastFor(log, name), lim);
    LastForIsNamed(log, name);
  }

  lemma RecordedStays(log: seq<Outcome>, log': seq<Outcome>, name: Name, answer: Answer)
    requires log <= log' && WasRecorded(log, name, answer)
    ensures WasRecorded(log', name, answer)
  {
    var o :| o in log && o.name == name && o.answer == answer;
    assert o in log';
  }

  // The goroutine that steps.
  lemma ActKeepsThread(s: State, e: Event, lim: Limits)
    requires Inv(s, lim) && e.Run? && e.t in s.pcs
    ensures var s' := Step(s, e, lim); ThreadOk(s'.w, s'.pcs, e.t, s'.pcs[e.t]) && s'.pcs[e.t].name == s.pcs[e.t].name
  {
    var pc, s' := s.pcs[e.t], Step(s, e, lim);
    assert ThreadOk(s.w, s.pcs, e.t, pc);
    ActKeepsAgreement(s.w, e.t, pc, Landed(s.pcs, pc), e, lim);
    match pc
    case FastPath(name) => if name in s.w.cache { CachedWasRecorded(s.w.cache, s.w.log, name, lim); }
    case Join(name) => if name in s.w.flights { assert FlightOk(s.pcs, name, s.w.flights[name]); }
    case Landing(name, o) => assert o in s.w.log;
    case Waiting(name, leader) => assert ThreadOk(s.w, s.pcs, leader, s.pcs[leader]);
    case Done(name, answer) => RecordedStays(s.w.log, s'.w.log, name, answer);
    case Recording(name, o) => assert s'.pcs[e.t].Landing? ==> o in s'.w.log;
    case Query(_) =>
  }

  // The goroutines that do not.
  lemma OthersKeepThread(s: State, e: Event, u: Tid, lim: Limits)
    requires Inv(s, lim) && e.Run? && e.t in s.pcs && u in s.pcs && u != e.t
    ensures var s' := Step(s, e, lim); ThreadOk(s'.w, s'.pcs, u, s.pcs[u])
  {
    var pc, s' := s.pcs[u], Step(s, e, lim);
    assert ThreadOk(s.w, s.pcs, u, pc) && ThreadOk(s.w, s.pcs, e.t, s.pcs[e.t]);
    ActKeepsAgreement(s.w, e.t, s.pcs[e.t], Landed(s.pcs, s.pcs[e.t]), e, lim);
    ActKeepsThread(s, e, lim);
    if pc.Done? {
      RecordedStays(s.w.log, s'.w.log, pc.name, pc.answer);
    }
  }

  lemma StepKeepsFlights(s: State, e: Event, name: Name, lim: Limits)
    requires Inv(s, lim) && e.Run? && e.t in s.pcs && name in Step(s, e, lim).w.flights
    ensures var s' := Step(s, e, lim); FlightOk(s'.pcs, name, s'.w.flights[name])
  {
    assert ThreadOk(s.w, s.pcs, e.t, s.pcs[e.t]);
    assert name in s.w.flights ==> FlightOk(s.pcs, name, s.w.flights[name]);
  }

  lemma ArrivalKeepsInv(s: State, t: Tid, name: Name, lim: Limits)
    requires Inv(s, lim) && t !in s.pcs
    ensures Inv(s.(pcs := s.pcs[t := FastPath(name)]), lim)
  {
    var pcs' := s.pcs[t := FastPath(name)];
    forall u: Tid | u in pcs'
      ensures ThreadOk(s.w, pcs', u, pcs'[u])
    {
      assert u != t ==> ThreadOk(s.w, s.pcs, u, s.pcs[u]);
    }
    forall n | n in s.w.flights
      ensures FlightOk(pcs', n, s.w.flights[n])
    {
      assert FlightOk(s.pcs, n, s.w.flights[n]);
    }
  }

  lemma StepKeepsInv(s: State, e: Event, lim: Limits)
    requires Inv(s, lim)
    ensures Inv(Step(s, e, lim), lim)
  {
    var s' := Step(s, e, lim);
    match e
    case Resolve(t, name) => if t !in s.pcs { ArrivalKeepsInv(s, t, name, lim); }
    case Clear =>
      assert forall t: Tid | t in s.pcs ::
          ThreadOk(s.w, s.pcs, t, s.pcs[t]) ==> ThreadOk(s'.w, s.pcs, t, s.pcs[t]);
    case Run(t, _, _, _) =>
      if t in s.pcs {
        ActKeepsAgreement(s.w, t, s.pcs[t], Landed(s.pcs, s.pcs[t]), e, lim);
        forall u: Tid | u in s'.pcs
          ensures ThreadOk(s'.w, s'.pcs, u, s'.pcs[u])
        {
          if u == t {
            ActKeepsThread(s, e, lim);
          } else {
            OthersKeepThread(s, e, u, lim);
          }
        }
        forall n | n in s'.w.flights
          ensures FlightOk(s'.pcs, n, s'.w.flights[n])
        {
          StepKeepsFlights(s, e, n, lim);
        }
      }
  }

  lemma {:induction false} RunKeepsInv(es: seq<Event>, lim: Limits)
    ensures Inv(RunAll(es, lim), lim)
  {
    if es != [] {
      RunKeepsInv(es[..|es| - 1], lim);
      StepKeepsInv(RunAll(es[..|es| - 1], lim), es[|es| - 1], lim);
    }
  }

  // ---- What every run promises.

  /** At most one goroutine at a time is asking the inner resolver for a name. */
  lemma OneQueryPerName(es: seq<Event>, lim: Limits, t: Tid, u: Tid)
    requires var pcs := RunAll(es, lim).pcs;
             t in pcs && u in pcs && Leads(pcs[t]) && Leads(pcs[u]) && pcs[t].name == pcs[u].name
    ensures t == u
  {
    RunKeepsInv(es, lim);
    var s := RunAll(es, lim);
    assert ThreadOk(s.w, s.pcs, t, s.pcs[t]) && ThreadOk(s.w, s.pcs, u, s.pcs[u]);
  }

  /** Every answer handed out, from the cache, by the leader or to a waiter, is one the
      inner resolver gave for that very name. */
  lemma AnswersWereRecorded(es: seq<Event>, lim: Limits, t: Tid)
    requires var pcs := RunAll(es, lim).pcs; t in pcs && pcs[t].Done?
    ensures var s := RunAll(es, lim); WasRecorded(s.w.log, s.pcs[t].name, s.pcs[t].answer)
  {
    RunKeepsInv(es, lim);
    var s := RunAll(es, lim);
    assert ThreadOk(s.w, s.pcs, t, s.pcs[t]);
  }

  /** An answer taken from the cache is the last outcome recorded for that name at that
      moment, and younger than the lifetime of its kind. */
  lemma CacheHitIsCurrent(es: seq<Event>, lim: Limits, e: Event)
    requires e.Run? && e.t in RunAll(es, lim).pcs && RunAll(es, lim).pcs[e.t].FastPath?
    requires Step(RunAll(es, lim), e, lim).pcs[e.t].Done?
    ensures var s := RunAll(es, lim);
            var last := LastFor(s.w.log, s.pcs[e.t].name);
            last.Some? && Step(s, e, lim).pcs[e.t].answer == last.value.answer
            && e.now - last.value.at < Lifetime(lim, last.value.answer)
  {
    RunKeepsInv(es, lim);
    var s := RunAll(es, lim);
    ServedIsLastRecorded(s.w.cache, s.w.log, s.pcs[e.t].name, e.now, lim);
  }

  /** Exactly when a call is answered from the cache: the name has an entry, and the last
      outcome recorded for it is younger than the lifetime of its kind. */
  lemma HitIff(es: seq<Event>, lim: Limits, e: Event)
    requires e.Run? && e.t in RunAll(es, lim).pcs && RunAll(es, lim).pcs[e.t].FastPath?
    ensures var s := RunAll(es, lim);
            var name := s.pcs[e.t].name;
            && (name in s.w.cache ==> LastFor(s.w.log, name).Some?)
            && (Step(s, e, lim).pcs[e.t].Done?
                <==> name in s.w.cache
                     && var last := LastFor(s.w.log, name).value; e.now - last.at < Lifetime(lim, last.answer))
  {
    RunKeepsInv(es, lim);
    var s := RunAll(es, lim);
    var name := s.pcs[e.t].name;
    assert name in s.w.cache ==> EntryAgrees(s.w.cache[name], LastFor(s.w.log, name), lim);
  }

  // A bound on the steps a call still takes.
  function Left(pc: PC): nat {
    match pc
    case FastPath(_) => 6
    case Join(_) => 5
    case Query(_) => 4
    case Recording(_, _) => 3
    case Landing(_, _) => 2
    case Waiting(_, _) => 1
    case Done(_, _) => 0
  }

  lemma StepAdvances(w: World, t: Tid, pc: PC, landed: Option<Answer>, e: Event, lim: Limits)
    requires e.Run? && !pc.Done? && (pc.Waiting? ==> landed.Some?)
    requires pc.Recording? ==> VictimsOk(w.cache, pc.o.answer, e.victims, e.now, lim)
    ensures Left(Act(w, t, pc, landed, e, lim).1) < Left(pc)
  {
  }

  /** No call waits in vain: it, or the leader it waits for, comes nearer its answer by its
      next step, whatever the inner resolver says, as long as an eviction picks its victims
      as it must. A caller whose leader has its answer returns that very answer. */
  lemma NobodyWaitsInVain(es: seq<Event>, lim: Limits, t: Tid) returns (u: Tid)
    requires var s := RunAll(es, lim); t in s.pcs && !s.pcs[t].Done?
    ensures var s := RunAll(es, lim);
            && u in s.pcs && (u == t || (s.pcs[t].Waiting? && u == s.pcs[t].leader && !s.pcs[u].Done?))
            && (forall e: Event | e.Run? && e.t == u
                           && (s.pcs[u].Recording? ==>
                                 VictimsOk(s.w.cache, s.pcs[u].o.answer, e.victims, e.now, lim)) ::
                  Left(Step(s, e, lim).pcs[u]) < Left(s.pcs[u])
                  && (s.pcs[u].Waiting? ==> Step(s, e, lim).pcs[u].Done?
                                            && Step(s, e, lim).pcs[u].answer == s.pcs[s.pcs[u].leader].answer))
  {
    RunKeepsInv(es, lim);
    var s := RunAll(es, lim);
    assert ThreadOk(s.w, s.pcs, t, s.pcs[t]);
    u := if s.pcs[t].Waiting? && !s.pcs[s.pcs[t].leader].Done? then s.pcs[t].leader else t;
    forall e: Event | e.Run? && e.t == u
               && (s.pcs[u].Recording? ==> VictimsOk(s.w.cache, s.pcs[u].o.answer, e.victims, e.now, lim))
      ensures Left(Step(s, e, lim).pcs[u]) < Left(s.pcs[u])
    {
      StepAdvances(s.w, u, s.pcs[u], Landed(s.pcs, s.pcs[u]), e, lim);
    }
  }

  function Names(log: seq<Outcome>): set<Name> {
    set o | o in log :: o.name
  }

  predicate NeverCleared(es: seq<Event>) {
    forall e | e in es :: e != Clear
  }

  lemma NamesGrow(log: seq<Outcome>, o: Outcome)
    ensures Names(log + [o]) == Names(log) + {o.name} && |Names(log)| <= |Names(log + [o])|
  {
    assert forall p :: p in log + [o] <==> p in log || p == o;
    forall n | n in Names(log) + {o.name}
      ensures n in Names(log + [o])
    {
      if n != o.name {
        var p :| p in log && p.name == n;
        assert p in log + [o];
      }
    }
    assert Names(log + [o]) == Names(log) + {o.name};
    CountSubset(Names(log), Names(log + [o]));
  }

  lemma CountSubset(a: set<Name>, b: set<Name>)
    requires a <= b
    ensures |a| <= |b|
  {
    assert b == a + (b - a);
    assert |b| == |a| + |b - a|;
  }

  lemma ActKeepsNames(w: World, t: Tid, pc: PC, landed: Option<Answer>, e: Event, lim: Limits)
    requires e.Run? && w.cache.Keys == Names(w.log)
    requires |Names(Act(w, t, pc, landed, e, lim).0.log)| < lim.maxEntries
    ensures var w' := Act(w, t, pc, landed, e, lim).0; w'.cache.Keys == Names(w'.log)
  {
    if pc.Recording? && VictimsOk(w.cache, pc.o.answer, e.victims, e.now, lim) {
      NamesGrow(w.log, pc.o);
      assert |w.cache.Keys| == |w.cache|;
      RecordedAlone(w.cache, pc.o, lim);
    }
  }

  lemma ActGrowsLog(w: World, t: Tid, pc: PC, landed: Option<Answer>, e: Event, lim: Limits)
    requires e.Run?
    ensures |Names(w.log)| <= |Names(Act(w, t, pc, landed, e, lim).0.log)|
  {
    if pc.Recording? {
      NamesGrow(w.log, pc.o);
    }
  }

  /** A resolver that has seen fewer names than its limit, and was not cleared, remembers
      the last outcome of every one of them. */
  lemma {:induction false} RemembersBelowLimit(es: seq<Event>, lim: Limits)
    requires NeverCleared(es) && |Names(RunAll(es, lim).w.log)| < lim.maxEntries
    ensures var w := RunAll(es, lim).w; w.cache.Keys == Names(w.log) && Agrees(w.cache, w.log, lim)
  {
    RunKeepsInv(es, lim);
    if es != [] {
      var before, e := es[..|es| - 1], es[|es| - 1];
      var s := RunAll(before, lim);
      assert forall x | x in before :: x in es;
      assert e in es;
      if e.Run? && e.t in s.pcs {
        ActGrowsLog(s.w, e.t, s.pcs[e.t], Landed(s.pcs, s.pcs[e.t]), e, lim);
        RemembersBelowLimit(before, lim);
        ActKeepsNames(s.w, e.t, s.pcs[e.t], Landed(s.pcs, s.pcs[e.t]), e, lim);
      } else {
        RemembersBelowLimit(before, lim);
      }
    }
  }

  function Failures(log: seq<Outcome>): nat {
    if log == [] then 0 else Failures(log[..|log| - 1]) + if log[|log| - 1].answer.Failed? then 1 else 0
  }

  /** Only recorded failures can take the cache past its limit, one entry each. */
  lemma {:induction false} SizeIsBoundedUpToFailures(es: seq<Event>, lim: Limits)
    requires LimitsOk(lim)
    ensures var w := RunAll(es, lim).w; |w.cache| <= lim.maxEntries + Failures(w.log)
  {
    if es != [] {
      SizeIsBoundedUpToFailures(es[..|es| - 1], lim);
      var s, e := RunAll(es[..|es| - 1], lim), es[|es| - 1];
      if e.Run? && e.t in s.pcs && s.pcs[e.t].Recording?
         && VictimsOk(s.w.cache, s.pcs[e.t].o.answer, e.victims, e.now, lim) {
        var o := s.pcs[e.t].o;
        SizeAfterRecord(s.w.cache, o, e.victims, e.now, lim);
        assert (s.w.log + [o])[..|s.w.log|] == s.w.log;
      }
    }
  }
}
