/**
  One reader or one writer against one change of its idle bound (models/net.go, and
  shortenRelayIdle in cmd/socks_adapter.go), interleaved at every atomic access. The re-arm
  check of Read and Write is there so that the shorter bound always wins; the theorems say
  when it does. For a read the change ends by bounding the read already blocked, for a
  write it does not.
 */
module IdleRace {
  import opened Options
  import TimeoutConn

  // `base` is the time and `idle` the bound the deadline was computed from. The flags say
  // of the call that set it: it loaded the bound before the new one was stored (`before`),
  // loaded the generation after it was bumped (`after`), and compared the generations
  // before it was bumped (`passed`).
  datatype Deadline = Deadline(base: int, idle: int, before: bool, after: bool, passed: bool)

  // SetIdleTimeout, then for reads SetReadDeadline.
  datatype Setter = Store | Bump | ResetMark | Bound | Finished

  // What the current call has loaded. `before` and `after` say when, as above.
  datatype Loaded = Loaded(now: int, idle: int, before: bool, gen: nat, after: bool)

  datatype Caller =
    | LoadIdle
    | LoadGen(r: Loaded)
    | LoadLast(r: Loaded)
    | Arm(r: Loaded)
    | Mark(r: Loaded)
    | Recheck(r: Loaded)
    | Reload(r: Loaded)
    | Rearm(r: Loaded, idle: int)
    | Blocked                          // in the underlying Read or Write

  datatype State = State(setter: Setter, caller: Caller, idle: int, gen: nat, last: int, deadline: Option<Deadline>)

  // The bound at construction and the shorter one, and which side is looked at.
  datatype Setting = Setting(long: int, short: int, forRead: bool)

  // The clock readings are whatever the clock says.
  datatype Event = Call(now: int) | Set(now: int)

  predicate SettingOk(b: Setting) {
    0 < b.short < b.long
  }

  function Init(b: Setting): State {
    State(Store, LoadIdle, b.long, 0, 0, None)
  }

  function ActSetter(s: State, b: Setting, now: int): State {
    match s.setter
    case Store => s.(idle := b.short, setter := Bump)
    case Bump => s.(gen := s.gen + 1, setter := ResetMark)
    case ResetMark => s.(last := 0, setter := Bound)
    case Bound =>
      s.(deadline := if b.forRead then Some(Deadline(now, b.short, false, false, false)) else s.deadline,
         setter := Finished)
    case Finished => s
  }

  function Passing(s: State): Option<Deadline> {
    if s.deadline.Some? && !Bumped(s) then Some(s.deadline.value.(passed := true)) else s.deadline
  }

  function ActCaller(s: State, now: int): State {
    match s.caller
    case LoadIdle => s.(caller := LoadGen(Loaded(now, s.idle, s.setter.Store?, 0, false)))
    case LoadGen(r) => s.(caller := LoadLast(r.(gen := s.gen, after := Bumped(s))))
    case LoadLast(r) => s.(caller := if r.now - s.last > r.idle / 4 then Arm(r) else Blocked)
    case Arm(r) => s.(deadline := Some(Deadline(r.now, r.idle, r.before, r.after, false)), caller := Mark(r))
    case Mark(r) => s.(last := r.now, caller := Recheck(r))
    case Recheck(r) =>
      if s.gen != r.gen then s.(caller := Reload(r)) else s.(caller := Blocked, deadline := Passing(s))
    case Reload(r) => s.(caller := Rearm(r, s.idle))
    case Rearm(r, idle) => s.(deadline := Some(Deadline(r.now, idle, false, false, false)), caller := Blocked)
    case Blocked => s.(caller := LoadIdle)   // it went through; the next call begins
  }

  function Step(s: State, b: Setting, e: Event): State {
    match e
    case Call(now) => ActCaller(s, now)
    case Set(now) => ActSetter(s, b, now)
  }

  function RunAll(b: Setting, es: seq<Event>): State {
    if es == [] then Init(b) else Step(RunAll(b, es[..|es| - 1]), b, es[|es| - 1])
  }

  predicate Stored(s: State) {
    !s.setter.Store?
  }

  predicate Bumped(s: State) {
    Stored(s) && !s.setter.Bump?
  }

  predicate Reset(s: State) {
    s.setter.Bound? || s.setter.Finished?
  }

  // The two orders in which a change can miss a call: the whole change fell between its
  // loads of the bound and of the generation, or the call had passed its check before.
  predicate Overtaken(d: Deadline) {
    d.before && d.after
  }

  predicate Earlier(d: Deadline) {
    d.before && d.passed
  }

  // ---- The invariant.

  predicate LoadedOk(r: Loaded, s: State, b: Setting) {
    && r.idle == (if r.before then b.long else b.short)
    && (!r.before ==> Stored(s))
    && r.gen == (if r.after then 1 else 0)
    && (r.after ==> Bumped(s))
  }

  predicate CallerOk(s: State, b: Setting) {
    match s.caller
    case LoadIdle => true
    case Blocked => true
    case LoadGen(r) => LoadedOk(r.(gen := 0, after := false), s, b)
    case Reload(r) => Bumped(s)
    case Rearm(r, idle) => Bumped(s) && idle == b.short
    case _ => LoadedOk(s.caller.r, s, b)
  }

  // The call is about to find out that its deadline is out of date.
  predicate WillRearm(caller: Caller) {
    caller.Reload? || caller.Rearm? || ((caller.Mark? || caller.Recheck?) && !caller.r.after)
  }

  predicate DeadlineOk(s: State, b: Setting) {
    && (s.deadline.Some? ==>
          var d := s.deadline.value;
          && d.idle == (if d.before then b.long else b.short)
          && (d.idle == b.short || Overtaken(d) || Earlier(d) || WillRearm(s.caller))
          && (d.passed ==> !s.caller.Mark? && !s.caller.Recheck? && !s.caller.Reload? && !s.caller.Rearm?)
          && (d.passed && Reset(s) ==> s.last == 0))
    && (s.setter.Finished? && b.forRead ==>
          s.deadline.Some? && (s.deadline.value.before ==> !s.deadline.value.passed))
  }

  predicate Inv(s: State, b: Setting) {
    && s.idle == (if Stored(s) then b.short else b.long)
    && s.gen == (if Bumped(s) then 1 else 0)
    && CallerOk(s, b) && DeadlineOk(s, b)
  }

  lemma CallerKeepsInv(s: State, b: Setting, now: int)
    requires SettingOk(b) && Inv(s, b)
    ensures Inv(ActCaller(s, now), b)
  {
  }

  lemma SetterKeepsInv(s: State, b: Setting, now: int)
    requires SettingOk(b) && Inv(s, b)
    ensures Inv(ActSetter(s, b, now), b)
  {
  }

  lemma {:induction false} RunKeepsInv(b: Setting, es: seq<Event>)
    requires SettingOk(b)
    ensures Inv(RunAll(b, es), b)
  {
    if es != [] {
      var s, e := RunAll(b, es[..|es| - 1]), es[|es| - 1];
      RunKeepsInv(b, es[..|es| - 1]);
      match e
      case Call(now) => CallerKeepsInv(s, b, now);
      case Set(now) => SetterKeepsInv(s, b, now);
    }
  }

  // ---- What every run promises.

  /** Once the bound has been shortened, a blocked read is under the shorter one unless,
      and only unless, the read that set its deadline loaded the bound before the change and
      the generation after it. */
  lemma ShorterBoundWinsIff(b: Setting, es: seq<Event>)
    requires SettingOk(b) && b.forRead && RunAll(b, es).setter.Finished? && RunAll(b, es).caller.Blocked?
    ensures var d := RunAll(b, es).deadline;
            d.Some? && (d.value.idle == b.short <==> !Overtaken(d.value))
  {
    RunKeepsInv(b, es);
  }

  /** A blocked write is so unless, and only unless, the write that set its deadline did
      that, or loaded the bound before the change and passed its check before the
      generation was bumped. */
  lemma WriteBoundIff(b: Setting, es: seq<Event>)
    requires SettingOk(b) && RunAll(b, es).setter.Finished? && RunAll(b, es).caller.Blocked?
    requires RunAll(b, es).deadline.Some?
    ensures var d := RunAll(b, es).deadline.value;
            d.idle == b.short <==> !Overtaken(d) && !Earlier(d)
  {
    RunKeepsInv(b, es);
  }

  // No clock reading is as early as a quarter of the longer bound.
  predicate Late(b: Setting, es: seq<Event>) {
    forall e | e in es && e.Call? :: e.now > b.long / 4
  }

  predicate LoadedLate(b: Setting, caller: Caller) {
    !caller.LoadIdle? && !caller.Blocked? ==> caller.r.now > b.long / 4
  }

  // A call that began after the mark was reset, and those behind it, do arm.
  predicate Renewed(s: State, b: Setting) {
    && Reset(s)
    && (s.caller.Blocked? ==> s.deadline.Some?)
    && (s.deadline.None? ==> s.last == 0)
    && (s.deadline.None? || s.deadline.value.passed ==>
          s.caller.LoadIdle? || s.caller.LoadGen? || s.caller.LoadLast? || s.caller.Arm?)
    && LoadedLate(b, s.caller)
  }

  lemma StepKeepsRenewed(s: State, b: Setting, e: Event)
    requires SettingOk(b) && Inv(s, b) && Renewed(s, b) && (e.Call? ==> e.now > b.long / 4)
    ensures Renewed(Step(s, b, e), b)
  {
  }

  lemma {:induction false} RunKeepsRenewed(b: Setting, es: seq<Event>, more: seq<Event>)
    requires SettingOk(b) && Late(b, more) && Renewed(RunAll(b, es), b)
    ensures Renewed(RunAll(b, es + more), b)
    decreases |more|
  {
    if more == [] {
      assert es + more == es;
    } else {
      var before, e := es + more[..|more| - 1], more[|more| - 1];
      assert before + [e] == es + more && (es + more)[..|es + more| - 1] == before;
      assert e in more && forall x | x in more[..|more| - 1] :: x in more;
      RunKeepsRenewed(b, es, more[..|more| - 1]);
      RunKeepsInv(b, before);
      StepKeepsRenewed(RunAll(b, before), b, e);
    }
  }

  lemma {:induction false} NoDeadlineNoMark(b: Setting, es: seq<Event>)
    ensures var s := RunAll(b, es);
            s.deadline.None? ==> s.last == 0 && !s.caller.Mark? && !s.caller.Recheck? && !s.caller.Reload?
  {
    if es != [] {
      NoDeadlineNoMark(b, es[..|es| - 1]);
    }
  }

  /** Every call that begins once the mark was reset blocks under the shorter bound unless,
      and only unless, it was overtaken: the change binds the next read and the next write. */
  lemma NextCallIsBound(b: Setting, es: seq<Event>, more: seq<Event>)
    requires SettingOk(b) && Late(b, more) && Reset(RunAll(b, es)) && RunAll(b, es).caller.LoadIdle?
    requires RunAll(b, es + more).caller.Blocked?
    ensures var d := RunAll(b, es + more).deadline;
            d.Some? && (d.value.idle == b.short <==> !Overtaken(d.value))
  {
    RunKeepsInv(b, es);
    NoDeadlineNoMark(b, es);
    RunKeepsRenewed(b, es, more);
    RunKeepsInv(b, es + more);
  }

  lemma Then(b: Setting, es: seq<Event>, e: Event) returns (longer: seq<Event>)
    ensures longer == es + [e] && RunAll(b, longer) == Step(RunAll(b, es), b, e)
  {
    longer := es + [e];
    assert longer[..|longer| - 1] == es;
  }

  // The call loads the bound, then the whole change happens.
  lemma ChangeInBetween(b: Setting, now: int) returns (es: seq<Event>)
    ensures var s := RunAll(b, es);
            && s.setter.Finished? && s.caller == LoadGen(Loaded(now, b.long, true, 0, false))
            && s.gen == 1 && s.last == 0
  {
    es := [];
    es := Then(b, es, Call(now));
    es := Then(b, es, Set(now));
    es := Then(b, es, Set(now));
    es := Then(b, es, Set(now));
    es := Then(b, es, Set(now));
  }

  /** That order does occur: the change is lost on a read or write that then blocks for the
      longer bound. */
  lemma ShorterBoundCanLose(b: Setting, now: int) returns (es: seq<Event>)
    requires SettingOk(b) && now > b.long
    ensures var s := RunAll(b, es);
            && s.setter.Finished? && s.caller.Blocked?
            && s.deadline == Some(Deadline(now, b.long, true, true, false))
  {
    es := ChangeInBetween(b, now);
    es := Then(b, es, Call(now));
    es := Then(b, es, Call(now));
    es := Then(b, es, Call(now));
    es := Then(b, es, Call(now));
    es := Then(b, es, Call(now));
  }

  /** So does the other one, for a write that was blocked when the change came. */
  lemma BlockedWriteKeepsBound(b: Setting, now: int) returns (es: seq<Event>)
    requires SettingOk(b) && !b.forRead && now > b.long
    ensures var s := RunAll(b, es);
            && s.setter.Finished? && s.caller.Blocked?
            && s.deadline == Some(Deadline(now, b.long, true, false, true))
  {
    es := [];
    es := Then(b, es, Call(now));
    es := Then(b, es, Call(now));
    es := Then(b, es, Call(now));
    assert RunAll(b, es).caller.Arm?;
    es := Then(b, es, Call(now));
    es := Then(b, es, Call(now));
    es := Then(b, es, Call(now));
    assert RunAll(b, es).caller.Blocked?;
    es := Then(b, es, Set(now));
    es := Then(b, es, Set(now));
    es := Then(b, es, Set(now));
    es := Then(b, es, Set(now));
  }

  // ---- Alone, a call and a change are those of TimeoutConn.

  function Calls(s: State, now: int, n: nat): State
    decreases n
  {
    if n == 0 then s else Calls(ActCaller(s, now), now, n - 1)
  }

  function Sets(s: State, b: Setting, now: int, n: nat): State
    decreases n
  {
    if n == 0 then s else Sets(ActSetter(s, b, now), b, now, n - 1)
  }

  // The mark and the deadline, as TimeoutConn has them.
  function SideOf(s: State): TimeoutConn.Side {
    TimeoutConn.Side(s.last, if s.deadline.Some? then Some(s.deadline.value.base + s.deadline.value.idle) else None)
  }

  /** A call that no change interrupts blocks with its side armed as TimeoutConn says. */
  lemma CallAlone(s: State, now: int) returns (n: nat)
    requires s.caller.LoadIdle? && s.idle > 0
    ensures var s' := Calls(s, now, n);
            && s'.caller.Blocked? && s'.setter == s.setter && s'.idle == s.idle && s'.gen == s.gen
            && SideOf(s') == TimeoutConn.Armed(SideOf(s), s.idle, now)
  {
    var s1 := ActCaller(s, now);
    var s2 := ActCaller(s1, now);
    var s3 := ActCaller(s2, now);
    assert Calls(s, now, 3) == Calls(s2, now, 1) == Calls(s3, now, 0);
    if s3.caller.Blocked? {
      n := 3;
    } else {
      n := 6;
      var s4 := ActCaller(s3, now);
      var s5 := ActCaller(s4, now);
      var s6 := ActCaller(s5, now);
      assert Calls(s, now, 6) == Calls(s2, now, 4) == Calls(s4, now, 2) == Calls(s6, now, 0);
    }
  }

  /** A change that no call interrupts leaves the bound and its side as TimeoutConn does:
      shortenRelayIdle for a read, SetIdleTimeout for a write. */
  lemma ChangeAlone(s: State, b: Setting, now: int, t: TimeoutConn.State)
    requires s.setter == Store
    requires SideOf(s) == if b.forRead then t.read else t.write
    ensures var s', t' := Sets(s, b, now, 4), TimeoutConn.Step(t, TimeoutConn.Shorten(b.short, now));
            && s'.setter.Finished? && s'.caller == s.caller && s'.gen == s.gen + 1
            && s'.idle == t'.idleOverride
            && SideOf(s') == if b.forRead then t'.read else t'.write
  {
    var s1 := ActSetter(s, b, now);
    var s2 := ActSetter(s1, b, now);
    var s3 := ActSetter(s2, b, now);
    var s4 := ActSetter(s3, b, now);
    assert Sets(s, b, now, 4) == Sets(s2, b, now, 2) == Sets(s4, b, now, 0);
  }
}
