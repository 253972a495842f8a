/**
  The lazily re-armed idle deadlines of models/net.go, and the relay's shortening of them
  (cmd/socks_adapter.go). Times are nanoseconds since the epoch.
 */
module TimeoutConn {
  import opened Options

  // When a direction was last armed, and the deadline its connection is under.
  datatype Side = Side(last: int, deadline: Option<int>)

  datatype State = State(idleTimeout: int, idleOverride: int, read: Side, write: Side)

  datatype Op =
    | Read(now: int)
    | Write(now: int)
    | SetIdle(d: int)
    | Shorten(d: int, now: int)   // shortenRelayIdle

  function Init(idleTimeout: int): State {
    State(idleTimeout, 0, Side(0, None), Side(0, None))
  }

  function EffectiveIdle(s: State): int {
    if s.idleOverride > 0 then s.idleOverride else s.idleTimeout
  }

  function Armed(side: Side, idle: int, now: int): Side {
    if idle > 0 && now - side.last > idle / 4 then Side(now, Some(now + idle)) else side
  }

  function Step(s: State, op: Op): State {
    match op
    case Read(now) => s.(read := Armed(s.read, EffectiveIdle(s), now))
    case Write(now) => s.(write := Armed(s.write, EffectiveIdle(s), now))
    case SetIdle(d) => s.(idleOverride := d, read := s.read.(last := 0), write := s.write.(last := 0))
    case Shorten(d, now) =>
      s.(idleOverride := d, read := Side(0, Some(now + d)), write := s.write.(last := 0))
  }

  function RunAll(idleTimeout: int, ops: seq<Op>): State {
    if ops == [] then Init(idleTimeout) else Step(RunAll(idleTimeout, ops[..|ops| - 1]), ops[|ops| - 1])
  }

  class Conn {
    const idleTimeout: int
    var idleOverride: int
    var idleGen: nat
    var lastRead: int
    var lastWrite: int
    var readDeadline: Option<int>    // of the underlying connection
    var writeDeadline: Option<int>

    ghost function Abs(): State
      reads this
    {
      State(idleTimeout, idleOverride, Side(lastRead, readDeadline), Side(lastWrite, writeDeadline))
    }

    constructor (idleTimeout: int)
      ensures Abs() == Init(idleTimeout)
    {
      this.idleTimeout := idleTimeout;
      idleOverride, idleGen, lastRead, lastWrite, readDeadline, writeDeadline := 0, 0, 0, 0, None, None;
    }

    method Idle() returns (idle: int)
      ensures idle == EffectiveIdle(Abs())
      ensures idle == if idleOverride > 0 then idleOverride else idleTimeout
    {
      idle := if idleOverride > 0 then idleOverride else idleTimeout;
    }

    /** What a Read does before it blocks. */
    method Read(now: int)
      modifies this
      ensures Abs() == Step(old(Abs()), Op.Read(now)) && idleGen == old(idleGen)
    {
      var idle := Idle();
      if idle > 0 && now - lastRead > idle / 4 {
        readDeadline := Some(now + idle);
        lastRead := now;
      }
    }

    method Write(now: int)
      modifies this
      ensures Abs() == Step(old(Abs()), Op.Write(now)) && idleGen == old(idleGen)
    {
      var idle := Idle();
      if idle > 0 && now - lastWrite > idle / 4 {
        writeDeadline := Some(now + idle);
        lastWrite := now;
      }
    }

    method SetIdleTimeout(d: int)
      modifies this
      ensures Abs() == Step(old(Abs()), SetIdle(d)) && idleGen == old(idleGen) + 1
    {
      idleOverride, idleGen, lastRead, lastWrite := d, idleGen + 1, 0, 0;
    }

    method SetReadDeadline(deadline: int)
      modifies this`readDeadline
      ensures readDeadline == Some(deadline)
    {
      readDeadline := Some(deadline);
    }
  }

  method ShortenRelayIdle(conn: Conn, d: int, now: int)
    modifies conn
    ensures conn.Abs() == Step(old(conn.Abs()), Shorten(d, now)) && conn.idleGen == old(conn.idleGen) + 1
  {
    conn.SetIdleTimeout(d);
    conn.SetReadDeadline(now + d);
  }

  // ---- What every sequence of operations promises.

  // The clock never runs backwards and reads later than a quarter of any idle in use.
  predicate ClockOk(idleTimeout: int, ops: seq<Op>) {
    && (forall i: nat, j: nat | i < j < |ops| && HasTime(ops[i]) && HasTime(ops[j]) :: ops[i].now <= ops[j].now)
    && forall i: nat | i < |ops| && HasTime(ops[i]) :: ops[i].now > EffectiveIdle(RunAll(idleTimeout, ops[..i])) / 4
  }

  predicate HasTime(op: Op) {
    op.Read? || op.Write?
  }

  // Marked as never armed, or armed for the idle that is in effect.
  predicate SideOk(side: Side, idle: int) {
    side.last == 0 || (side.last > 0 && side.deadline == Some(side.last + idle))
  }

  predicate SideWithin(side: Side, ops: seq<Op>, forRead: bool) {
    side.last == 0
    || exists i: nat :: i < |ops| && (if forRead then ops[i].Read? else ops[i].Write?) && ops[i].now == side.last
  }

  lemma PrefixClock(idleTimeout: int, ops: seq<Op>, n: nat)
    requires n <= |ops| && ClockOk(idleTimeout, ops)
    ensures ClockOk(idleTimeout, ops[..n])
  {
    forall i: nat | i < n
      ensures ops[..n][..i] == ops[..i]
    {
    }
  }

  lemma StepKeepsSides(s: State, op: Op)
    requires EffectiveIdle(s) > 0 ==> SideOk(s.read, EffectiveIdle(s)) && SideOk(s.write, EffectiveIdle(s))
    requires HasTime(op) ==> op.now > EffectiveIdle(s) / 4
    ensures var s' := Step(s, op);
            EffectiveIdle(s') > 0 ==> SideOk(s'.read, EffectiveIdle(s')) && SideOk(s'.write, EffectiveIdle(s'))
  {
  }

  lemma {:induction false} SidesOk(idleTimeout: int, ops: seq<Op>)
    requires ClockOk(idleTimeout, ops)
    ensures var s := RunAll(idleTimeout, ops);
            EffectiveIdle(s) > 0 ==> SideOk(s.read, EffectiveIdle(s)) && SideOk(s.write, EffectiveIdle(s))
  {
    if ops != [] {
      PrefixClock(idleTimeout, ops, |ops| - 1);
      SidesOk(idleTimeout, ops[..|ops| - 1]);
      StepKeepsSides(RunAll(idleTimeout, ops[..|ops| - 1]), ops[|ops| - 1]);
    }
  }

  lemma {:induction false} MarksAreTimes(idleTimeout: int, ops: seq<Op>)
    ensures var s := RunAll(idleTimeout, ops); SideWithin(s.read, ops, true) && SideWithin(s.write, ops, false)
  {
    if ops != [] {
      var before := ops[..|ops| - 1];
      MarksAreTimes(idleTimeout, before);
      MarkStays(RunAll(idleTimeout, before).read, before, ops[|ops| - 1], true);
      MarkStays(RunAll(idleTimeout, before).write, before, ops[|ops| - 1], false);
      assert before + [ops[|ops| - 1]] == ops;
    }
  }

  lemma MarkStays(side: Side, ops: seq<Op>, op: Op, forRead: bool)
    requires SideWithin(side, ops, forRead)
    ensures SideWithin(side, ops + [op], forRead)
    ensures (if forRead then op.Read? else op.Write?) ==> SideWithin(Side(op.now, side.deadline), ops + [op], forRead)
  {
    var all := ops + [op];
    assert all[|ops|] == op;
    if side.last != 0 {
      var i: nat :| i < |ops| && (if forRead then ops[i].Read? else ops[i].Write?) && ops[i].now == side.last;
      assert all[i] == ops[i];
    }
  }

  /** Whatever came before, a read at `now` blocks under a deadline between
      now + idle - idle/4 and now + idle, for the idle in effect at that moment: an idle
      change made between two reads binds the next one. */
  lemma ReadDeadlineWindow(idleTimeout: int, ops: seq<Op>, now: int)
    requires ClockOk(idleTimeout, ops + [Op.Read(now)]) && EffectiveIdle(RunAll(idleTimeout, ops)) > 0
    ensures var s := RunAll(idleTimeout, ops + [Op.Read(now)]);
            && EffectiveIdle(s) == EffectiveIdle(RunAll(idleTimeout, ops)) && s.read.deadline.Some?
            && now + EffectiveIdle(s) - EffectiveIdle(s) / 4 <= s.read.deadline.value <= now + EffectiveIdle(s)
  {
    var all := ops + [Op.Read(now)];
    assert all[..|ops|] == ops && all[|ops|] == Op.Read(now);
    PrefixClock(idleTimeout, all, |ops|);
    SidesOk(idleTimeout, ops);
    MarksAreTimes(idleTimeout, ops);
    var s := RunAll(idleTimeout, ops);
    if s.read.last != 0 {
      var i: nat :| i < |ops| && ops[i].Read? && ops[i].now == s.read.last;
      assert all[i].now <= all[|ops|].now;
    }
  }

  /** The same for a write. */
  lemma WriteDeadlineWindow(idleTimeout: int, ops: seq<Op>, now: int)
    requires ClockOk(idleTimeout, ops + [Op.Write(now)]) && EffectiveIdle(RunAll(idleTimeout, ops)) > 0
    ensures var s := RunAll(idleTimeout, ops + [Op.Write(now)]);
            && EffectiveIdle(s) == EffectiveIdle(RunAll(idleTimeout, ops)) && s.write.deadline.Some?
            && now + EffectiveIdle(s) - EffectiveIdle(s) / 4 <= s.write.deadline.value <= now + EffectiveIdle(s)
  {
    var all := ops + [Op.Write(now)];
    assert all[..|ops|] == ops && all[|ops|] == Op.Write(now);
    PrefixClock(idleTimeout, all, |ops|);
    SidesOk(idleTimeout, ops);
    MarksAreTimes(idleTimeout, ops);
    var s := RunAll(idleTimeout, ops);
    if s.write.last != 0 {
      var i: nat :| i < |ops| && ops[i].Write? && ops[i].now == s.write.last;
      assert all[i].now <= all[|ops|].now;
    }
  }

  function SideOf(s: State, op: Op): Side {
    if op.Write? then s.write else s.read
  }

  /** A positive bound set between two calls is the bound of the next read and of the next
      write, whatever came before. */
  lemma SetIdleBindsNextCall(idleTimeout: int, ops: seq<Op>, d: int, op: Op)
    requires d > 0 && HasTime(op) && ClockOk(idleTimeout, ops + [SetIdle(d)] + [op])
    ensures var s := RunAll(idleTimeout, ops + [SetIdle(d)] + [op]);
            SideOf(s, op).deadline == Some(op.now + d)
  {
    var changed, all := ops + [SetIdle(d)], ops + [SetIdle(d)] + [op];
    assert changed[..|ops|] == ops && all[..|changed|] == changed && all[|changed|] == op;
    assert op.now > EffectiveIdle(RunAll(idleTimeout, changed)) / 4;
  }

  /** Arming is lazy: a call that changes its deadline comes more than a quarter of the bound
      after the last one that did, and one within that quarter changes nothing. */
  lemma ArmsLazily(s: State, op: Op)
    requires HasTime(op)
    ensures SideOf(Step(s, op), op) != SideOf(s, op) ==> op.now - SideOf(s, op).last > EffectiveIdle(s) / 4
    ensures op.now - SideOf(s, op).last <= EffectiveIdle(s) / 4 ==> Step(s, op) == s
  {
  }

  // ---- What that means for a stream.

  predicate Expired(side: Side, now: int) {
    side.deadline.Some? && now >= side.deadline.value
  }

  // The state in which operation i blocks, and the bound it was armed with.
  function Blocking(idleTimeout: int, ops: seq<Op>, i: nat): State
    requires i < |ops|
  {
    RunAll(idleTimeout, ops[..i + 1])
  }

  predicate Bounded(idleTimeout: int, ops: seq<Op>, i: nat)
    requires i < |ops|
  {
    HasTime(ops[i]) && EffectiveIdle(Blocking(idleTimeout, ops, i)) > 0
  }

  lemma BlockingWindow(idleTimeout: int, ops: seq<Op>, i: nat)
    requires ClockOk(idleTimeout, ops) && i < |ops| && Bounded(idleTimeout, ops, i)
    ensures var s := Blocking(idleTimeout, ops, i);
            var d := SideOf(s, ops[i]).deadline;
            && d.Some?
            && ops[i].now + EffectiveIdle(s) - EffectiveIdle(s) / 4 <= d.value <= ops[i].now + EffectiveIdle(s)
  {
    assert ops[..i + 1] == ops[..i] + [ops[i]];
    PrefixClock(idleTimeout, ops, i + 1);
    assert ops[..i + 1][..i] == ops[..i];
    assert RunAll(idleTimeout, ops[..i + 1]) == Step(RunAll(idleTimeout, ops[..i]), ops[i]);
    if ops[i].Read? {
      ReadDeadlineWindow(idleTimeout, ops[..i], ops[i].now);
    } else {
      WriteDeadlineWindow(idleTimeout, ops[..i], ops[i].now);
    }
  }

  /** An active stream is never cut: if whatever each read or write waits for comes within
      three quarters of the bound then in effect, it comes before the deadline. */
  lemma ActiveStreamNeverCut(idleTimeout: int, ops: seq<Op>, ready: seq<int>)
    requires ClockOk(idleTimeout, ops) && |ready| == |ops|
    requires forall i: nat | i < |ops| && Bounded(idleTimeout, ops, i) ::
               var idle := EffectiveIdle(Blocking(idleTimeout, ops, i)); ready[i] - ops[i].now < idle - idle / 4
    ensures forall i: nat | i < |ops| && Bounded(idleTimeout, ops, i) ::
              !Expired(SideOf(Blocking(idleTimeout, ops, i), ops[i]), ready[i])
  {
    forall i: nat | i < |ops| && Bounded(idleTimeout, ops, i)
      ensures !Expired(SideOf(Blocking(idleTimeout, ops, i), ops[i]), ready[i])
    {
      BlockingWindow(idleTimeout, ops, i);
    }
  }

  /** A silent one always is: a read or write that is still waiting a whole bound later has
      met its deadline. */
  lemma SilentStreamAlwaysCut(idleTimeout: int, ops: seq<Op>, i: nat, now: int)
    requires ClockOk(idleTimeout, ops) && i < |ops| && Bounded(idleTimeout, ops, i)
    requires now >= ops[i].now + EffectiveIdle(Blocking(idleTimeout, ops, i))
    ensures Expired(SideOf(Blocking(idleTimeout, ops, i), ops[i]), now)
  {
    BlockingWindow(idleTimeout, ops, i);
  }
}
