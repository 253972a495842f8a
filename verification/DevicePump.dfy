/**
  The device pump: the batched read of internal/netstack/tun.go (netTun.Read) and the
  loop of runDeviceToIP in api/forwarding_supervisor.go. A packet that the stack hands
  over is either readable bytes or a view whose read fails.
 */
module DevicePump {
  import opened Naturals
  import opened Options

  type Byte = bv8
  datatype View = Good(data: seq<Byte>) | Bad

  // What copying `data` into a buffer of this capacity keeps.
  function Clip(data: seq<Byte>, capacity: nat): seq<Byte> {
    data[..Min(|data|, capacity)]
  }

  lemma ClipKeeps(data: seq<Byte>, capacity: nat)
    ensures |data| <= capacity ==> Clip(data, capacity) == data
    ensures |data| > capacity ==> |Clip(data, capacity)| == capacity && Clip(data, capacity) + data[capacity..] == data
  {
  }

  // The incoming queue, the packets that have not arrived yet, and the arrival schedule:
  // before each receive some more packets arrive, the next entry says how many.
  datatype Device = Device(queue: seq<View>, future: seq<View>, schedule: seq<nat>)

  function Arrived(d: Device): Device {
    if d.schedule == [] then d
    else
      var n := Min(d.schedule[0], |d.future|);
      Device(d.queue + d.future[..n], d.future[n..], d.schedule[1..])
  }

  // The receive with a default branch.
  function TryReceived(d: Device): (Option<View>, Device) {
    var a := Arrived(d);
    if a.queue == [] then (None, a) else (Some(a.queue[0]), a.(queue := a.queue[1..]))
  }

  // The receive that waits; None once the device is closed, which is when nothing is left
  // to arrive.
  function Received(d: Device): (Option<View>, Device) {
    var a := Arrived(d);
    if a.queue != [] then (Some(a.queue[0]), a.(queue := a.queue[1..]))
    else if a.future != [] then (Some(a.future[0]), a.(future := a.future[1..]))
    else (None, a)
  }

  datatype Batch = Batch(n: nat, closed: bool, bad: bool, rest: Device)

  function Drained(d: Device, n: nat, batch: nat): Batch
    decreases batch - n
  {
    if n >= batch then Batch(n, false, false, d)
    else
      match TryReceived(d)
      case (None, d') => Batch(n, false, false, d')
      case (Some(Bad), d') => Batch(n, false, true, d')
      case (Some(Good(_)), d') => Drained(d', n + 1, batch)
  }

  /** What one batched read of up to `batch` packets does. */
  function ReadOf(d: Device, batch: nat): Batch {
    match Received(d)
    case (None, d') => Batch(0, true, false, d')
    case (Some(Bad), d') => Batch(0, false, true, d')
    case (Some(Good(_)), d') => Drained(d', 1, batch)
  }

  function Stream(d: Device): seq<View> {
    d.queue + d.future
  }

  // A batch takes the next packets of the stream, in order, and says why it stopped.
  predicate Takes(stream: seq<View>, b: Batch, batch: nat) {
    && b.n <= |stream| && b.n <= batch
    && (b.closed ==> b.n == 0 && stream == [] && !b.bad)
    && (b.closed || b.n > 0 || b.bad)
    && (b.bad ==> b.n < batch && b.n < |stream| && stream[b.n] == Bad)
    && Stream(b.rest) == stream[b.n + if b.bad then 1 else 0..]
    && (!b.bad && b.n < batch ==> b.rest.queue == [])
    && (forall i | 0 <= i < b.n :: stream[i].Good?)
  }

  lemma {:induction false} DrainedTakes(stream: seq<View>, d: Device, n: nat, batch: nat)
    requires 1 <= n <= batch && n <= |stream| && Stream(d) == stream[n..]
    requires forall i | 0 <= i < n :: stream[i].Good?
    ensures Takes(stream, Drained(d, n, batch), batch)
    decreases batch - n
  {
    if n < batch {
      var (v, d') := TryReceived(d);
      assert Stream(Arrived(d)) == Stream(d);
      if v.Some? {
        assert v.value == stream[n..][0] && Stream(d') == stream[n..][1..] == stream[n + 1..];
        if v.value.Good? {
          DrainedTakes(stream, d', n + 1, batch);
        }
      }
    }
  }

  lemma ReadTakes(d: Device, batch: nat)
    requires batch > 0
    ensures Takes(Stream(d), ReadOf(d, batch), batch)
  {
    var (v, d') := Received(d);
    assert Stream(Arrived(d)) == Stream(d);
    if v.Some? {
      assert v.value == Stream(d)[0] && Stream(d') == Stream(d)[1..];
      if v.value.Good? {
        DrainedTakes(Stream(d), d', 1, batch);
      }
    }
  }

  // The first n buffers hold the first n packets of the stream, each clipped to its buffer.
  predicate Filled(bufs: seq<seq<Byte>>, sizes: seq<nat>, n: nat, stream: seq<View>) {
    && n <= |bufs| && n <= |sizes| && n <= |stream|
    && forall i | 0 <= i < n ::
         sizes[i] <= |bufs[i]| && bufs[i][..sizes[i]] == Clip(Data(stream[i]), |bufs[i]|)
  }

  /** What one packet leaves in its buffer. */
  predicate Arrives(data: seq<Byte>, buf: seq<Byte>, size: nat) {
    if |data| <= |buf| then size == |data| && buf[..size] == data
    else size == |buf| && buf == data[..|buf|]
  }

  lemma FilledArrives(bufs: seq<seq<Byte>>, sizes: seq<nat>, n: nat, stream: seq<View>)
    requires Filled(bufs, sizes, n, stream)
    ensures forall i | 0 <= i < n :: Arrives(Data(stream[i]), bufs[i], sizes[i])
  {
    forall i | 0 <= i < n
      ensures Arrives(Data(stream[i]), bufs[i], sizes[i])
    {
      var data := Data(stream[i]);
      ClipKeeps(data, |bufs[i]|);
      assert |bufs[i][..sizes[i]]| == |Clip(data, |bufs[i]|)|;
      if |data| > |bufs[i]| {
        assert bufs[i] == bufs[i][..sizes[i]] == data[..|bufs[i]|];
      }
    }
  }

  // `data` copied into buffer i; the bytes beyond it stay as they were.
  function Copied(buf: seq<Byte>, data: seq<Byte>): seq<Byte> {
    Clip(data, |buf|) + buf[|Clip(data, |buf|)|..]
  }

  lemma FilledMore(bufs: seq<seq<Byte>>, sizes: seq<nat>, n: nat, stream: seq<View>)
    requires Filled(bufs, sizes, n, stream) && n < |bufs| && n < |sizes| && n < |stream|
    ensures var data := Data(stream[n]);
            Filled(bufs[n := Copied(bufs[n], data)], sizes[n := |Clip(data, |bufs[n]|)|], n + 1, stream)
  {
    var data := Data(stream[n]);
    var part := Clip(data, |bufs[n]|);
    assert (part + bufs[n][|part|..])[..|part|] == part;
  }

  /** The device. */
  class NetTun {
    var queue: seq<View>
    var future: seq<View>
    var schedule: seq<nat>
    ghost var stream: seq<View>  // everything still to be read

    ghost predicate Valid()
      reads this
    {
      stream == queue + future
    }

    ghost function Abs(): Device
      reads this
    {
      Device(queue, future, schedule)
    }

    constructor (future: seq<View>, schedule: seq<nat>)
      ensures Valid() && stream == future && Abs() == Device([], future, schedule)
    {
      this.queue, this.future, this.schedule, this.stream := [], future, schedule, future;
    }

    method Arrive()
      requires Valid()
      modifies this
      ensures Valid() && stream == old(stream) && Abs() == Arrived(old(Abs()))
    {
      if schedule != [] {
        var n := Min(schedule[0], |future|);
        queue, future, schedule := queue + future[..n], future[n..], schedule[1..];
      }
    }

    // `<-incomingPacket`
    method Receive() returns (v: Option<View>)
      requires Valid()
      modifies this
      ensures Valid() && (v, Abs()) == Received(old(Abs()))
      ensures old(stream) == [] ==> v == None && stream == [] && queue == []
      ensures old(stream) != [] ==> v == Some(old(stream)[0]) && stream == old(stream)[1..]
    {
      Arrive();
      if queue == [] && future != [] {
        queue, future := [future[0]], future[1..];
      }
      if queue == [] {
        return None;
      }
      v, queue, stream := Some(queue[0]), queue[1..], stream[1..];
    }

    method TryReceive() returns (v: Option<View>)
      requires Valid()
      modifies this
      ensures Valid() && (v, Abs()) == TryReceived(old(Abs()))
      ensures v == None ==> stream == old(stream) && queue == []
      ensures v.Some? ==> old(stream) != [] && v.value == old(stream)[0] && stream == old(stream)[1..]
    {
      Arrive();
      if queue == [] {
        return None;
      }
      v, queue, stream := Some(queue[0]), queue[1..], stream[1..];
    }

    /** Fills a prefix of the buffers in place. Without an error the first `n` packets of
        the stream are read, in order, `n` between 1 and the number of buffers: one that fits
        its buffer arrives whole, a longer one fills it. With an error the count still tells
        how many were read before the bad one. */
    method Read(bufs: array<seq<Byte>>, sizes: array<nat>) returns (n: nat, closed: bool, bad: bool)
      requires bufs.Length == sizes.Length > 0
      requires Valid() && bufs != sizes as object
      modifies this, bufs, sizes
      ensures Valid() && Batch(n, closed, bad, Abs()) == ReadOf(old(Abs()), bufs.Length)
      ensures Takes(old(stream), Batch(n, closed, bad, Abs()), bufs.Length)
      ensures stream == old(stream)[n + if bad then 1 else 0..]
      ensures forall i | 0 <= i < bufs.Length :: |bufs[i]| == |old(bufs[i])|
      ensures n <= bufs.Length && n <= |old(stream)| && forall i | 0 <= i < n ::
                Arrives(Data(old(stream)[i]), bufs[i], sizes[i])
      ensures Filled(bufs[..], sizes[..], n, old(stream))
    {
      ghost var all, before := stream, Abs();
      ReadTakes(before, bufs.Length);
      var view := Receive();
      if view == None {
        return 0, true, false;
      }
      if view.value == Bad {
        return 0, false, true;
      }
      FilledMore(bufs[..], sizes[..], 0, all);
      Fill(bufs, sizes, 0, view.value.data);
      n, bad := Drain(bufs, sizes, all);
      FilledArrives(bufs[..], sizes[..], n, all);
      return n, false, bad;
    }

    // The rest of Read: whatever is already queued, without blocking.
    method Drain(bufs: array<seq<Byte>>, sizes: array<nat>, ghost all: seq<View>) returns (n: nat, bad: bool)
      requires bufs.Length == sizes.Length > 0
      requires Valid() && bufs != sizes as object
      requires all != [] && stream == all[1..] && Filled(bufs[..], sizes[..], 1, all)
      modifies this, bufs, sizes
      ensures Valid() && Batch(n, false, bad, Abs()) == Drained(old(Abs()), 1, bufs.Length)
      ensures n + (if bad then 1 else 0) <= |all| && stream == all[n + if bad then 1 else 0..]
      ensures forall i | 0 <= i < bufs.Length :: |bufs[i]| == |old(bufs[i])|
      ensures Filled(bufs[..], sizes[..], n, all)
    {
      n := 1;
      while n < bufs.Length
        invariant 1 <= n <= bufs.Length && n <= |all|
        invariant Valid() && stream == all[n..] && Drained(Abs(), n, bufs.Length) == Drained(old(Abs()), 1, bufs.Length)
        invariant forall i | 0 <= i < bufs.Length :: |bufs[i]| == |old(bufs[i])|
        invariant Filled(bufs[..], sizes[..], n, all)
      {
        var view := TryReceive();
        if view == None {
          return n, false;
        }
        assert all[n + 1..] == all[n..][1..];
        if view.value == Bad {
          return n, true;
        }
        FilledMore(bufs[..], sizes[..], n, all);
        Fill(bufs, sizes, n, view.value.data);
        n := n + 1;
      }
      return n, false;
    }

    // view.Read into buffer `i`
    method Fill(bufs: array<seq<Byte>>, sizes: array<nat>, i: nat, data: seq<Byte>)
      requires i < bufs.Length == sizes.Length && bufs != sizes as object
      modifies bufs, sizes
      ensures bufs[..] == old(bufs[..])[i := Copied(old(bufs[i]), data)]
      ensures sizes[..] == old(sizes[..])[i := |Clip(data, |old(bufs[i])|)|]
    {
      var part := Clip(data, |bufs[i]|);
      bufs[i] := part + bufs[i][|part|..];
      sizes[i] := |part|;
    }
  }

  type Id = nat

  // What the pump meets in one turn: the session sampled for the batch, whether its
  // context is still live, and how many writes succeed before one fails.
  datatype Sample = Sample(session: Option<Id>, usable: bool, writes: nat)

  // One turn as it happened: `n` packets read, then perhaps a bad view.
  datatype Turn = Turn(n: nat, bad: bool, sample: Sample)

  datatype Delivery = Delivery(session: Id, packet: seq<Byte>)

  // The turn that the device takes.
  function TurnOf(d: Device, batch: nat, sample: Sample): Turn {
    Turn(ReadOf(d, batch).n, ReadOf(d, batch).bad, sample)
  }

  // What is left after k turns.
  function After(d: Device, batch: nat, k: nat): Device {
    if k == 0 then d else ReadOf(After(d, batch, k - 1), batch).rest
  }

  /** The turns that the pump takes on this device, whatever it was given to arrive when. */
  ghost predicate TurnsOf(d: Device, batch: nat, samples: seq<Sample>, turns: seq<Turn>) {
    |turns| == |samples|
    && forall k: nat | k < |turns| :: turns[k] == TurnOf(After(d, batch, k), batch, samples[k])
  }

  // How many packets of a turn reach WritePacket without an error.
  function Sent(t: Turn): nat {
    if t.bad || t.sample.session == None || !t.sample.usable then 0 else Min(t.n, t.sample.writes)
  }

  function Taken(t: Turn): nat {
    t.n + if t.bad then 1 else 0
  }

  // How many packets the first `k` turns took off the stream.
  function Start(turns: seq<Turn>, k: nat): nat
    requires k <= |turns|
  {
    if k == 0 then 0 else Start(turns, k - 1) + Taken(turns[k - 1])
  }

  // Turn `t`, begun at position `at`, read what the stream holds there.
  ghost predicate TurnReads(stream: seq<View>, at: nat, t: Turn, batch: nat) {
    && t.n <= batch && at + Taken(t) <= |stream|
    && (forall i | at <= i < at + t.n :: stream[i].Good?)
    && (t.bad ==> t.n < batch && stream[at + t.n] == Bad)
  }

  ghost predicate TurnAtReads(stream: seq<View>, turns: seq<Turn>, batch: nat, k: nat)
    requires k < |turns|
  {
    TurnReads(stream, Start(turns, k), turns[k], batch)
  }

  ghost predicate Reads(stream: seq<View>, turns: seq<Turn>, batch: nat) {
    forall k | 0 <= k < |turns| :: TurnAtReads(stream, turns, batch, k)
  }

  function Data(v: View): seq<Byte> {
    if v.Good? then v.data else []
  }

  // The first `n` packets from position `at`, delivered to one session.
  function Part(stream: seq<View>, at: nat, n: nat, session: Id, capacity: nat): seq<Delivery>
    requires at + n <= |stream|
  {
    if n == 0 then []
    else Part(stream, at, n - 1, session, capacity) + [Delivery(session, Clip(Data(stream[at + n - 1]), capacity))]
  }

  function TurnDelivers(stream: seq<View>, at: nat, t: Turn, capacity: nat): seq<Delivery>
    requires at + Taken(t) <= |stream|
  {
    if Sent(t) == 0 then [] else Part(stream, at, Sent(t), t.sample.session.value, capacity)
  }

  // What the first `k` turns deliver.
  ghost function Deliver(stream: seq<View>, turns: seq<Turn>, k: nat, capacity: nat): seq<Delivery>
    requires k <= |turns| && Start(turns, k) <= |stream|
  {
    if k == 0 then []
    else Deliver(stream, turns, k - 1, capacity) + TurnDelivers(stream, Start(turns, k - 1), turns[k - 1], capacity)
  }

  lemma {:induction false} StartOfPrefix(turns: seq<Turn>, t: Turn, k: nat)
    requires k <= |turns|
    ensures Start(turns + [t], k) == Start(turns, k)
  {
    if k > 0 {
      StartOfPrefix(turns, t, k - 1);
    }
  }

  lemma {:induction false} DeliverOfPrefix(stream: seq<View>, turns: seq<Turn>, t: Turn, k: nat, capacity: nat)
    requires k <= |turns| && Start(turns, k) <= |stream|
    ensures Start(turns + [t], k) == Start(turns, k)
    ensures Deliver(stream, turns + [t], k, capacity) == Deliver(stream, turns, k, capacity)
  {
    StartOfPrefix(turns, t, k);
    if k > 0 {
      DeliverOfPrefix(stream, turns, t, k - 1, capacity);
    }
  }

  lemma AddTurn(stream: seq<View>, turns: seq<Turn>, t: Turn, batch: nat, capacity: nat)
    requires Reads(stream, turns, batch) && Start(turns, |turns|) <= |stream|
    requires TurnReads(stream, Start(turns, |turns|), t, batch)
    ensures Reads(stream, turns + [t], batch)
    ensures Start(turns + [t], |turns| + 1) == Start(turns, |turns|) + Taken(t)
    ensures Deliver(stream, turns + [t], |turns| + 1, capacity)
            == Deliver(stream, turns, |turns|, capacity) + TurnDelivers(stream, Start(turns, |turns|), t, capacity)
  {
    DeliverOfPrefix(stream, turns, t, |turns|, capacity);
    forall k | 0 <= k < |turns + [t]|
      ensures TurnAtReads(stream, turns + [t], batch, k)
    {
      StartOfPrefix(turns, t, k);
      if k < |turns| {
        assert TurnAtReads(stream, turns, batch, k);
      }
    }
  }

  ghost predicate Ran(stream: seq<View>, turns: seq<Turn>, batch: nat, capacity: nat, log: seq<Delivery>) {
    && Reads(stream, turns, batch) && Start(turns, |turns|) <= |stream|
    && log == Deliver(stream, turns, |turns|, capacity)
  }

  lemma NextTurnOf(d: Device, batch: nat, samples: seq<Sample>, k: nat, turns: seq<Turn>, t: Turn)
    requires k < |samples| && TurnsOf(d, batch, samples[..k], turns)
    requires t == TurnOf(After(d, batch, k), batch, samples[k])
    ensures TurnsOf(d, batch, samples[..k + 1], turns + [t])
  {
    forall i: nat | i < |turns + [t]|
      ensures (turns + [t])[i] == TurnOf(After(d, batch, i), batch, samples[..k + 1][i])
    {
      if i < k {
        assert turns[i] == TurnOf(After(d, batch, i), batch, samples[..k][i]);
      }
    }
  }

  /** The loop of runDeviceToIP over as many turns as are watched: what reaches
      WritePacket is what the turns deliver. */
  method RunDeviceToIP(dev: NetTun, batch: nat, capacity: nat, samples: seq<Sample>)
    returns (log: seq<Delivery>, ghost turns: seq<Turn>)
    requires batch > 0 && dev.Valid()
    modifies dev
    ensures dev.Valid()
    ensures TurnsOf(old(dev.Abs()), batch, samples, turns)
    ensures Ran(old(dev.stream), turns, batch, capacity, log)
    ensures dev.stream == old(dev.stream)[Start(turns, |turns|)..]
  {
    ghost var stream, start := dev.stream, dev.Abs();
    var zero: seq<Byte> := seq(capacity, _ => 0);
    var bufs := new seq<Byte>[batch](_ => zero);
    var sizes := new nat[batch](_ => 0);
    log, turns := [], [];
    for k := 0 to |samples|
      invariant dev.Abs() == After(start, batch, k) && TurnsOf(start, batch, samples[..k], turns)
      invariant Ran(stream, turns, batch, capacity, log)
      invariant dev.Valid() && dev.stream == stream[Start(turns, |turns|)..]
      invariant forall i | 0 <= i < batch :: |bufs[i]| == capacity
    {
      ghost var turn, rest := Turn(0, false, samples[k]), dev.stream;
      var part;
      part, turn := RunTurn(dev, bufs, sizes, capacity, samples[k]);
      NextTurnOf(start, batch, samples, k, turns, turn);
      NextTurn(stream, turns, turn, batch, capacity, log, rest);
      RestAfter(stream, turns, turn, rest);
      log, turns := log + part, turns + [turn];
    }
    assert samples[..|samples|] == samples;
  }

  lemma NextTurn(stream: seq<View>, turns: seq<Turn>, t: Turn, batch: nat, capacity: nat,
                 log: seq<Delivery>, rest: seq<View>)
    requires Ran(stream, turns, batch, capacity, log)
    requires rest == stream[Start(turns, |turns|)..] && TurnReads(rest, 0, t, batch)
    ensures Ran(stream, turns + [t], batch, capacity, log + TurnDelivers(rest, 0, t, capacity))
  {
    Shift(stream, Start(turns, |turns|), t, batch, capacity);
    AddTurn(stream, turns, t, batch, capacity);
    var turns' := turns + [t];
    assert Deliver(stream, turns', |turns'|, capacity) == log + TurnDelivers(rest, 0, t, capacity);
  }

  lemma RestAfter(stream: seq<View>, turns: seq<Turn>, t: Turn, rest: seq<View>)
    requires Start(turns, |turns|) + Taken(t) <= |stream| && rest == stream[Start(turns, |turns|)..]
    ensures Start(turns + [t], |turns + [t]|) == Start(turns, |turns|) + Taken(t)
    ensures rest[Taken(t)..] == stream[Start(turns + [t], |turns + [t]|)..]
  {
    StartOfPrefix(turns, t, |turns|);
  }

  // One turn, told about what is left of the stream.
  method RunTurn(dev: NetTun, bufs: array<seq<Byte>>, sizes: array<nat>, ghost capacity: nat, sample: Sample)
    returns (part: seq<Delivery>, ghost turn: Turn)
    requires dev.Valid() && bufs.Length == sizes.Length > 0 && bufs != sizes as object
    requires forall i | 0 <= i < bufs.Length :: |bufs[i]| == capacity
    modifies dev, bufs, sizes
    ensures dev.Valid() && forall i | 0 <= i < bufs.Length :: |bufs[i]| == capacity
    ensures turn == TurnOf(old(dev.Abs()), bufs.Length, sample) && dev.Abs() == ReadOf(old(dev.Abs()), bufs.Length).rest
    ensures TurnReads(old(dev.stream), 0, turn, bufs.Length)
    ensures dev.stream == old(dev.stream)[Taken(turn)..]
    ensures part == TurnDelivers(old(dev.stream), 0, turn, capacity)
  {
    ghost var rest := dev.stream;
    var n, closed, bad := dev.Read(bufs, sizes);
    turn := Turn(n, bad, sample);
    part := WriteBatch(bufs, sizes, n, bad, sample, rest, capacity);
  }

  // A turn seen from the rest of the stream is that turn seen from its beginning.
  lemma Shift(stream: seq<View>, at: nat, t: Turn, batch: nat, capacity: nat)
    requires at <= |stream| && TurnReads(stream[at..], 0, t, batch)
    ensures TurnReads(stream, at, t, batch)
    ensures stream[at..][Taken(t)..] == stream[at + Taken(t)..]
    ensures TurnDelivers(stream[at..], 0, t, capacity) == TurnDelivers(stream, at, t, capacity)
  {
    assert forall i | at <= i < at + t.n :: stream[i] == stream[at..][i - at];
    if Sent(t) > 0 {
      ShiftPart(stream, at, Sent(t), t.sample.session.value, capacity);
    }
  }

  lemma {:induction false} ShiftPart(stream: seq<View>, at: nat, n: nat, session: Id, capacity: nat)
    requires at + n <= |stream|
    ensures Part(stream[at..], 0, n, session, capacity) == Part(stream, at, n, session, capacity)
  {
    if n > 0 {
      ShiftPart(stream, at, n - 1, session, capacity);
    }
  }

  // The part of a turn after the read: nothing on a read error or without a usable
  // session, else one write after the other up to the first that fails.
  method WriteBatch(bufs: array<seq<Byte>>, sizes: array<nat>, n: nat, bad: bool, sample: Sample,
                    ghost rest: seq<View>, ghost capacity: nat)
    returns (part: seq<Delivery>)
    requires n <= bufs.Length == sizes.Length && Taken(Turn(n, bad, sample)) <= |rest|
    requires forall i | 0 <= i < n :: sizes[i] <= |bufs[i]|
    requires forall i | 0 <= i < n :: bufs[i][..sizes[i]] == Clip(Data(rest[i]), capacity)
    ensures part == TurnDelivers(rest, 0, Turn(n, bad, sample), capacity)
  {
    part := [];
    if bad || sample.session == None || !sample.usable {
      return;
    }
    var i := 0;
    while i < n && i != sample.writes
      invariant 0 <= i <= Min(n, sample.writes)
      invariant part == Part(rest, 0, i, sample.session.value, capacity)
    {
      part := part + [Delivery(sample.session.value, bufs[i][..sizes[i]])];
      i := i + 1;
    }
  }

  // ---- What the turns deliver, whatever they met.

  // How many packets the first `k` turns deliver.
  function SentBefore(turns: seq<Turn>, k: nat): nat
    requires k <= |turns|
  {
    if k == 0 then 0 else SentBefore(turns, k - 1) + Sent(turns[k - 1])
  }

  lemma {:induction false} PartAt(stream: seq<View>, at: nat, n: nat, session: Id, capacity: nat, i: nat)
    requires at + n <= |stream|
    ensures |Part(stream, at, n, session, capacity)| == n
    ensures i < n ==> Part(stream, at, n, session, capacity)[i]
                      == Delivery(session, Clip(Data(stream[at + i]), capacity))
  {
    if n > 0 {
      PartAt(stream, at, n - 1, session, capacity, i);
    }
  }

  lemma {:induction false} StartGrows(turns: seq<Turn>, j: nat, k: nat)
    requires j <= k <= |turns|
    ensures Start(turns, j) <= Start(turns, k) && SentBefore(turns, j) <= SentBefore(turns, k)
    ensures j < k ==> Start(turns, j) + Taken(turns[j]) <= Start(turns, k)
    ensures j < k ==> SentBefore(turns, j) + Sent(turns[j]) <= SentBefore(turns, k)
  {
    if j < k {
      StartGrows(turns, j, k - 1);
    }
  }

  lemma {:induction false} DeliverLength(stream: seq<View>, turns: seq<Turn>, k: nat, capacity: nat)
    requires k <= |turns| && Start(turns, k) <= |stream|
    ensures |Deliver(stream, turns, k, capacity)| == SentBefore(turns, k)
  {
    if k > 0 {
      var t := turns[k - 1];
      DeliverLength(stream, turns, k - 1, capacity);
      if Sent(t) > 0 {
        PartAt(stream, Start(turns, k - 1), Sent(t), t.sample.session.value, capacity, 0);
      }
    }
  }

  // The i-th delivery of a turn that began at position `at`.
  lemma TurnDeliversAt(stream: seq<View>, at: nat, t: Turn, capacity: nat, i: nat)
    requires at + Taken(t) <= |stream| && i < Sent(t)
    ensures |TurnDelivers(stream, at, t, capacity)| == Sent(t)
    ensures TurnDelivers(stream, at, t, capacity)[i]
            == Delivery(t.sample.session.value, Clip(Data(stream[at + i]), capacity))
  {
    PartAt(stream, at, Sent(t), t.sample.session.value, capacity, i);
  }

  lemma AppendMore(front: seq<Delivery>, part: seq<Delivery>, rest: seq<Delivery>, more: seq<Delivery>)
    ensures front + part + (rest + more) == front + part + rest + more
  {
  }

  // The turns before turn `b`, turn `b`, and the turns after it.
  lemma {:induction false} DeliverSplits(stream: seq<View>, turns: seq<Turn>, k: nat, capacity: nat, b: nat)
    returns (rest: seq<Delivery>)
    requires b < k <= |turns| && Start(turns, k) <= |stream|
    ensures Start(turns, b) + Taken(turns[b]) <= |stream|
    ensures Deliver(stream, turns, k, capacity)
            == Deliver(stream, turns, b, capacity) + TurnDelivers(stream, Start(turns, b), turns[b], capacity) + rest
  {
    if b == k - 1 {
      rest := [];
    } else {
      var before := DeliverSplits(stream, turns, k - 1, capacity, b);
      var more := TurnDelivers(stream, Start(turns, k - 1), turns[k - 1], capacity);
      rest := before + more;
      AppendMore(Deliver(stream, turns, b, capacity), TurnDelivers(stream, Start(turns, b), turns[b], capacity),
                 before, more);
    }
  }

  lemma MiddleOf(front: seq<Delivery>, part: seq<Delivery>, rest: seq<Delivery>, from: nat, to: nat)
    requires from == |front| && to == |front| + |part|
    ensures to <= |front + part + rest| && (front + part + rest)[from..to] == part
  {
  }

  lemma TurnLength(stream: seq<View>, at: nat, t: Turn, capacity: nat)
    requires at + Taken(t) <= |stream|
    ensures |TurnDelivers(stream, at, t, capacity)| == Sent(t)
  {
    if Sent(t) > 0 {
      TurnDeliversAt(stream, at, t, capacity, 0);
    }
  }

  // These are the packets from position `at` on, in order, to one session.
  predicate IsPart(part: seq<Delivery>, stream: seq<View>, at: nat, session: Id, capacity: nat) {
    at + |part| <= |stream|
    && forall i | 0 <= i < |part| :: part[i] == Delivery(session, Clip(Data(stream[at + i]), capacity))
  }

  lemma TurnIsPart(stream: seq<View>, at: nat, t: Turn, capacity: nat)
    requires at + Taken(t) <= |stream| && Sent(t) > 0
    ensures IsPart(TurnDelivers(stream, at, t, capacity), stream, at, t.sample.session.value, capacity)
  {
    TurnLength(stream, at, t, capacity);
    forall i | 0 <= i < Sent(t)
      ensures TurnDelivers(stream, at, t, capacity)[i]
              == Delivery(t.sample.session.value, Clip(Data(stream[at + i]), capacity))
    {
      TurnDeliversAt(stream, at, t, capacity, i);
    }
  }

  /** Turn `b` delivers, right after what the earlier turns delivered, the first packets it
      read, in order and all to the session it sampled. */
  lemma EachTurnDeliversAPrefix(stream: seq<View>, turns: seq<Turn>, k: nat, capacity: nat, b: nat)
    requires b < k <= |turns| && Start(turns, k) <= |stream|
    ensures Start(turns, b) + Taken(turns[b]) <= |stream|
    ensures var from, to := SentBefore(turns, b), SentBefore(turns, b) + Sent(turns[b]);
            to <= |Deliver(stream, turns, k, capacity)|
            && Deliver(stream, turns, k, capacity)[from..to]
               == TurnDelivers(stream, Start(turns, b), turns[b], capacity)
    ensures Sent(turns[b]) > 0 ==>
              IsPart(TurnDelivers(stream, Start(turns, b), turns[b], capacity), stream, Start(turns, b),
                     turns[b].sample.session.value, capacity)
  {
    if Sent(turns[b]) > 0 {
      StartGrows(turns, b, k);
      TurnIsPart(stream, Start(turns, b), turns[b], capacity);
    }
    var rest := DeliverSplits(stream, turns, k, capacity, b);
    DeliverLength(stream, turns, b, capacity);
    TurnLength(stream, Start(turns, b), turns[b], capacity);
    MiddleOf(Deliver(stream, turns, b, capacity), TurnDelivers(stream, Start(turns, b), turns[b], capacity), rest,
             SentBefore(turns, b), SentBefore(turns, b) + Sent(turns[b]));
  }

  lemma {:induction false} ComesFrom(turns: seq<Turn>, k: nat, j: nat) returns (b: nat, i: nat)
    requires k <= |turns| && j < SentBefore(turns, k)
    ensures b < k && i < Sent(turns[b]) && j == SentBefore(turns, b) + i
  {
    if j < SentBefore(turns, k - 1) {
      b, i := ComesFrom(turns, k - 1, j);
    } else {
      b, i := k - 1, j - SentBefore(turns, k - 1);
    }
  }

  lemma TurnSlice(stream: seq<View>, turns: seq<Turn>, capacity: nat, b: nat) returns (part: seq<Delivery>)
    requires Start(turns, |turns|) <= |stream| && b < |turns| && Sent(turns[b]) > 0
    ensures IsPart(part, stream, Start(turns, b), turns[b].sample.session.value, capacity)
    ensures |part| == Sent(turns[b]) && SentBefore(turns, b) + |part| <= |Deliver(stream, turns, |turns|, capacity)|
    ensures Deliver(stream, turns, |turns|, capacity)[SentBefore(turns, b)..SentBefore(turns, b) + |part|] == part
  {
    EachTurnDeliversAPrefix(stream, turns, |turns|, capacity, b);
    part := TurnDelivers(stream, Start(turns, b), turns[b], capacity);
    TurnLength(stream, Start(turns, b), turns[b], capacity);
  }

  lemma SliceAt(all: seq<Delivery>, from: nat, part: seq<Delivery>, i: nat, stream: seq<View>, at: nat, session: Id,
                capacity: nat)
    requires from + |part| <= |all| && all[from..from + |part|] == part && i < |part|
    requires IsPart(part, stream, at, session, capacity)
    ensures at + i < |stream| && all[from + i] == Delivery(session, Clip(Data(stream[at + i]), capacity))
  {
    assert all[from..from + |part|][i] == all[from + i];
  }

  lemma DeliveryAt(stream: seq<View>, turns: seq<Turn>, capacity: nat, b: nat, i: nat)
    requires Start(turns, |turns|) <= |stream| && b < |turns| && i < Sent(turns[b])
    ensures Start(turns, b) + i < |stream|
    ensures SentBefore(turns, b) + i < |Deliver(stream, turns, |turns|, capacity)|
    ensures Deliver(stream, turns, |turns|, capacity)[SentBefore(turns, b) + i]
            == Delivery(turns[b].sample.session.value, Clip(Data(stream[Start(turns, b) + i]), capacity))
  {
    var part := TurnSlice(stream, turns, capacity, b);
    SliceAt(Deliver(stream, turns, |turns|, capacity), SentBefore(turns, b), part, i, stream, Start(turns, b),
            turns[b].sample.session.value, capacity);
  }

  /** Every delivery has its source: packet `i` of turn `b`. */
  lemma DeliveryHasSource(stream: seq<View>, turns: seq<Turn>, capacity: nat, j: nat) returns (b: nat, i: nat)
    requires Start(turns, |turns|) <= |stream| && j < |Deliver(stream, turns, |turns|, capacity)|
    ensures b < |turns| && i < Sent(turns[b]) && j == SentBefore(turns, b) + i && Start(turns, b) + i < |stream|
    ensures Deliver(stream, turns, |turns|, capacity)[j]
            == Delivery(turns[b].sample.session.value, Clip(Data(stream[Start(turns, b) + i]), capacity))
  {
    DeliverLength(stream, turns, |turns|, capacity);
    b, i := ComesFrom(turns, |turns|, j);
    DeliveryAt(stream, turns, capacity, b, i);
  }

  lemma LaterComesLater(turns: seq<Turn>, b: nat, i: nat, b': nat, i': nat)
    requires b < |turns| && b' < |turns| && i < Sent(turns[b]) && i' < Sent(turns[b'])
    requires SentBefore(turns, b) + i < SentBefore(turns, b') + i'
    ensures b <= b' && Start(turns, b) + i < Start(turns, b') + i'
  {
    if b < b' {
      StartGrows(turns, b, b');
    } else if b' < b {
      StartGrows(turns, b', b);
    }
  }

  // Where in the stream the j-th delivery of the first k turns was read.
  function Source(turns: seq<Turn>, k: nat, j: nat): nat
    requires k <= |turns| && j < SentBefore(turns, k)
  {
    if j < SentBefore(turns, k - 1) then Source(turns, k - 1, j)
    else Start(turns, k - 1) + (j - SentBefore(turns, k - 1))
  }

  lemma {:induction false} SourceIs(turns: seq<Turn>, k: nat, b: nat, i: nat)
    requires b < k <= |turns| && i < Sent(turns[b])
    ensures SentBefore(turns, b) + i < SentBefore(turns, k)
    ensures Source(turns, k, SentBefore(turns, b) + i) == Start(turns, b) + i
  {
    if b < k - 1 {
      SourceIs(turns, k - 1, b, i);
    }
  }

  lemma SourceDelivers(stream: seq<View>, turns: seq<Turn>, capacity: nat, j: nat)
    requires Start(turns, |turns|) <= |stream| && j < |Deliver(stream, turns, |turns|, capacity)|
    ensures j < SentBefore(turns, |turns|) && Source(turns, |turns|, j) < |stream|
    ensures Deliver(stream, turns, |turns|, capacity)[j].packet
            == Clip(Data(stream[Source(turns, |turns|, j)]), capacity)
  {
    var b, i := DeliveryHasSource(stream, turns, capacity, j);
    SourceIs(turns, |turns|, b, i);
  }

  lemma SourcesIncrease(turns: seq<Turn>, k: nat, j: nat, j': nat)
    requires k <= |turns| && j < j' < SentBefore(turns, k)
    ensures Source(turns, k, j) < Source(turns, k, j')
  {
    var b, i := ComesFrom(turns, k, j);
    var b', i' := ComesFrom(turns, k, j');
    SourceIs(turns, k, b, i);
    SourceIs(turns, k, b', i');
    LaterComesLater(turns, b, i, b', i');
  }

  /** What is delivered is a subsequence of what is read: the source positions of all
      deliveries strictly increase. So no packet is delivered twice or out of turn, and one
      that fits the buffers is delivered whole. */
  lemma DeliveriesKeepOrder(stream: seq<View>, turns: seq<Turn>, capacity: nat) returns (pos: seq<nat>)
    requires Start(turns, |turns|) <= |stream|
    ensures var ds := Deliver(stream, turns, |turns|, capacity);
            && |pos| == |ds|
            && (forall j | 0 <= j < |ds| :: pos[j] < |stream| && ds[j].packet == Clip(Data(stream[pos[j]]), capacity))
            && (forall j | 0 <= j < |ds| && |Data(stream[pos[j]])| <= capacity :: ds[j].packet == Data(stream[pos[j]]))
            && forall j, j' | 0 <= j < j' < |ds| :: pos[j] < pos[j']
  {
    var n := |turns|;
    DeliverLength(stream, turns, n, capacity);
    pos := seq(SentBefore(turns, n), j requires 0 <= j < SentBefore(turns, n) => Source(turns, n, j));
    forall j | 0 <= j < |pos|
      ensures var d := Deliver(stream, turns, n, capacity)[j];
              pos[j] < |stream| && d.packet == Clip(Data(stream[pos[j]]), capacity)
    {
      SourceDelivers(stream, turns, capacity, j);
    }
    forall j | 0 <= j < |pos| && |Data(stream[pos[j]])| <= capacity
      ensures Deliver(stream, turns, n, capacity)[j].packet == Data(stream[pos[j]])
    {
      ClipKeeps(Data(stream[pos[j]]), capacity);
    }
    forall j, j' | 0 <= j < j' < |pos|
      ensures pos[j] < pos[j']
    {
      SourcesIncrease(turns, n, j, j');
    }
  }

  // Turn `b` does not sample an older session than turn `a`.
  predicate NoOlder(turns: seq<Turn>, a: nat, b: nat)
    requires a < |turns| && b < |turns|
  {
    var s, s' := turns[a].sample.session, turns[b].sample.session;
    s.Some? && s'.Some? ==> s.value <= s'.value
  }

  /** If the sampled session ids never go back, neither do those of the deliveries. */
  lemma SessionsKeepOrder(stream: seq<View>, turns: seq<Turn>, capacity: nat, j: nat, j': nat)
    requires Start(turns, |turns|) <= |stream|
    requires forall a, b | 0 <= a < b < |turns| :: NoOlder(turns, a, b)
    requires j < j' < |Deliver(stream, turns, |turns|, capacity)|
    ensures var ds := Deliver(stream, turns, |turns|, capacity); ds[j].session <= ds[j'].session
  {
    var b, i := DeliveryHasSource(stream, turns, capacity, j);
    var b', i' := DeliveryHasSource(stream, turns, capacity, j');
    LaterComesLater(turns, b, i, b', i');
    assert b < b' ==> NoOlder(turns, b, b');
  }

  // ---- The batched pump against the one-packet pump.

  // A usable session in every turn, and no write error.
  ghost predicate Unhindered(turns: seq<Turn>) {
    forall k | 0 <= k < |turns| :: Free(turns[k])
  }

  predicate Free(t: Turn) {
    t.sample.session.Some? && t.sample.usable && t.n <= t.sample.writes
  }

  function Packets(ds: seq<Delivery>): seq<seq<Byte>> {
    if ds == [] then [] else Packets(ds[..|ds| - 1]) + [ds[|ds| - 1].packet]
  }

  // The readable packets among the first `n` of the stream.
  function Readable(stream: seq<View>, n: nat, capacity: nat): seq<seq<Byte>>
    requires n <= |stream|
  {
    if n == 0 then []
    else Readable(stream, n - 1, capacity) + if stream[n - 1].Good? then [Clip(stream[n - 1].data, capacity)] else []
  }

  predicate Loses(t: Turn) {
    t.bad && t.n > 0
  }

  lemma {:induction false} PacketsOfPart(ds: seq<Delivery>, stream: seq<View>, at: nat, n: nat, session: Id,
                                         capacity: nat)
    requires at + n <= |stream| && forall i | at <= i < at + n :: stream[i].Good?
    requires Packets(ds) == Readable(stream, at, capacity)
    ensures Packets(ds + Part(stream, at, n, session, capacity)) == Readable(stream, at + n, capacity)
  {
    if n == 0 {
      assert ds + [] == ds;
    } else {
      PacketsOfPart(ds, stream, at, n - 1, session, capacity);
      var before, last := ds + Part(stream, at, n - 1, session, capacity), Clip(stream[at + n - 1].data, capacity);
      assert ds + Part(stream, at, n, session, capacity) == before + [Delivery(session, last)];
      assert (before + [Delivery(session, last)])[..|before|] == before;
    }
  }

  lemma {:induction false} PacketsCount(ds: seq<Delivery>)
    ensures |Packets(ds)| == |ds|
  {
    if ds != [] {
      PacketsCount(ds[..|ds| - 1]);
    }
  }

  lemma {:induction false} ReadableCount(stream: seq<View>, at: nat, n: nat, capacity: nat)
    requires at + n <= |stream| && forall i | at <= i < at + n :: stream[i].Good?
    ensures |Readable(stream, at + n, capacity)| == |Readable(stream, at, capacity)| + n
  {
    if n > 0 {
      ReadableCount(stream, at, n - 1, capacity);
    }
  }

  lemma {:induction false} LosslessDeliversAll(stream: seq<View>, turns: seq<Turn>, batch: nat, k: nat, capacity: nat)
    returns (ds: seq<Delivery>)
    requires Reads(stream, turns, batch) && Unhindered(turns) && k <= |turns| && Start(turns, k) <= |stream|
    requires forall b | 0 <= b < k :: !Loses(turns[b])
    ensures ds == Deliver(stream, turns, k, capacity)
    ensures Packets(ds) == Readable(stream, Start(turns, k), capacity)
  {
    if k == 0 {
      ds := [];
    } else {
      var before := LosslessDeliversAll(stream, turns, batch, k - 1, capacity);
      var at, t := Start(turns, k - 1), turns[k - 1];
      assert TurnAtReads(stream, turns, batch, k - 1) && Free(t) && !Loses(t);
      ds := LosslessTurn(before, stream, at, t, batch, capacity);
    }
  }

  lemma LosslessTurn(ds: seq<Delivery>, stream: seq<View>, at: nat, t: Turn, batch: nat, capacity: nat)
    returns (more: seq<Delivery>)
    requires TurnReads(stream, at, t, batch) && Free(t) && !Loses(t)
    requires Packets(ds) == Readable(stream, at, capacity)
    ensures more == ds + TurnDelivers(stream, at, t, capacity)
    ensures Packets(more) == Readable(stream, at + Taken(t), capacity)
  {
    more := ds + TurnDelivers(stream, at, t, capacity);
    if t.n > 0 {
      FullTurn(ds, stream, at, t, capacity);
    } else {
      EmptyTurn(ds, stream, at, t, capacity);
    }
  }

  lemma FullTurn(ds: seq<Delivery>, stream: seq<View>, at: nat, t: Turn, capacity: nat)
    requires Free(t) && !t.bad && t.n > 0 && at + t.n <= |stream|
    requires forall i | at <= i < at + t.n :: stream[i].Good?
    requires Packets(ds) == Readable(stream, at, capacity)
    ensures Packets(ds + TurnDelivers(stream, at, t, capacity)) == Readable(stream, at + Taken(t), capacity)
  {
    assert Sent(t) == t.n;
    PacketsOfPart(ds, stream, at, t.n, t.sample.session.value, capacity);
  }

  lemma EmptyTurn(ds: seq<Delivery>, stream: seq<View>, at: nat, t: Turn, capacity: nat)
    requires t.n == 0 && at + Taken(t) <= |stream| && (t.bad ==> stream[at] == Bad)
    requires Packets(ds) == Readable(stream, at, capacity)
    ensures Packets(ds + TurnDelivers(stream, at, t, capacity)) == Readable(stream, at + Taken(t), capacity)
  {
    assert ds + [] == ds;
    if t.bad {
      assert Readable(stream, at + 1, capacity) == Readable(stream, at, capacity) + [];
    }
  }

  lemma {:induction false} LossShowsInCount(stream: seq<View>, turns: seq<Turn>, batch: nat, k: nat, capacity: nat)
    requires Reads(stream, turns, batch) && Unhindered(turns) && k <= |turns| && Start(turns, k) <= |stream|
    ensures SentBefore(turns, k) <= |Readable(stream, Start(turns, k), capacity)|
    ensures (exists b | 0 <= b < k :: Loses(turns[b]))
            ==> SentBefore(turns, k) < |Readable(stream, Start(turns, k), capacity)|
  {
    if k > 0 {
      var at, t := Start(turns, k - 1), turns[k - 1];
      LossShowsInCount(stream, turns, batch, k - 1, capacity);
      assert TurnAtReads(stream, turns, batch, k - 1);
      ReadableCount(stream, at, t.n, capacity);
    }
  }

  /** With a usable session and no write error, WritePacket sees every readable packet
      in order if and only if no bad view was read behind readable ones of its batch. */
  lemma DeliversAllIffNoLoss(stream: seq<View>, turns: seq<Turn>, batch: nat, capacity: nat)
    requires Reads(stream, turns, batch) && Unhindered(turns) && Start(turns, |turns|) <= |stream|
    ensures Packets(Deliver(stream, turns, |turns|, capacity)) == Readable(stream, Start(turns, |turns|), capacity)
            <==> forall b | 0 <= b < |turns| :: !Loses(turns[b])
  {
    if forall b | 0 <= b < |turns| :: !Loses(turns[b]) {
      var ds := LosslessDeliversAll(stream, turns, batch, |turns|, capacity);
    } else {
      LossShowsInCount(stream, turns, batch, |turns|, capacity);
      PacketsCount(Deliver(stream, turns, |turns|, capacity));
      DeliverLength(stream, turns, |turns|, capacity);
    }
  }

  // No bad view directly behind a readable packet.
  predicate Separated(stream: seq<View>) {
    forall i | 0 < i < |stream| :: stream[i] == Bad ==> stream[i - 1] == Bad
  }

  /** The batched pump refines the one-packet pump: on a stream that each has read to
      the end, they write the same packets in the same order, however the packets
      arrived, provided no bad view directly follows a readable packet. */
  lemma BatchedRefinesShim(stream: seq<View>, batched: seq<Turn>, batch: nat, shim: seq<Turn>, capacity: nat)
    requires Reads(stream, batched, batch) && Unhindered(batched) && Start(batched, |batched|) == |stream|
    requires Reads(stream, shim, 1) && Unhindered(shim) && Start(shim, |shim|) == |stream|
    requires Separated(stream)
    ensures Packets(Deliver(stream, batched, |batched|, capacity))
            == Packets(Deliver(stream, shim, |shim|, capacity)) == Readable(stream, |stream|, capacity)
  {
    forall b | 0 <= b < |batched|
      ensures !Loses(batched[b])
    {
      assert TurnAtReads(stream, batched, batch, b);
      var end := Start(batched, b) + batched[b].n;
      assert batched[b].n > 0 ==> stream[end - 1].Good?;
    }
    forall b | 0 <= b < |shim|
      ensures !Loses(shim[b])
    {
      assert TurnAtReads(stream, shim, 1, b);
    }
    DeliversAllIffNoLoss(stream, batched, batch, capacity);
    DeliversAllIffNoLoss(stream, shim, 1, capacity);
  }

  // A session of its own for turn k: a failed read closes the session it is reported on.
  function FreshSample(session: Id, k: nat): Sample {
    Sample(Some(session + k), true, 1)
  }

  function FreshSamples(session: Id, n: nat): seq<Sample> {
    seq(n, k requires 0 <= k < n => FreshSample(session, k))
  }

  // One packet a turn.
  function Singles(stream: seq<View>, n: nat, session: Id): seq<Turn>
    requires n <= |stream|
  {
    if n == 0 then []
    else
      var sample := FreshSample(session, n - 1);
      Singles(stream, n - 1, session)
      + [if stream[n - 1].Good? then Turn(1, false, sample) else Turn(0, true, sample)]
  }

  lemma {:induction false} SinglesRead(stream: seq<View>, n: nat, session: Id, batch: nat)
    requires n <= |stream| && batch > 0
    ensures var turns := Singles(stream, n, session);
            && |turns| == n && Start(turns, n) == n && Reads(stream, turns, batch)
            && forall k | 0 <= k < n :: turns[k].sample == FreshSample(session, k) && turns[k].n <= 1
  {
    if n > 0 {
      SinglesRead(stream, n - 1, session, batch);
      var t := Singles(stream, n, session)[n - 1];
      AddTurn(stream, Singles(stream, n - 1, session), t, batch, 0);
    }
  }

  // The receives of the first k reads, when no packet is early.
  function Gaps(stream: seq<View>, k: nat): nat
    requires k <= |stream|
  {
    if k == 0 then 0 else Gaps(stream, k - 1) + if stream[k - 1].Good? then 2 else 1
  }

  function Zeros(n: nat): seq<nat> {
    seq(n, _ => 0)
  }

  lemma ZerosSplit(m: nat, n: nat)
    ensures Zeros(m + n) == Zeros(m) + Zeros(n)
  {
  }

  // A read that meets an empty queue takes one packet when none has followed it by then.
  lemma LoneRead(stream: seq<View>, batch: nat, rest: seq<nat>)
    requires stream != [] && batch >= 2
    ensures var d := Device([], stream, Zeros(if stream[0].Good? then 2 else 1) + rest);
            ReadOf(d, batch) == (if stream[0].Good? then Batch(1, false, false, Device([], stream[1..], rest))
                                 else Batch(0, false, true, Device([], stream[1..], rest)))
  {
    var g := if stream[0].Good? then 2 else 1;
    var d := Device([], stream, Zeros(g) + rest);
    assert stream[..0] == [] && stream[0..] == stream;
    assert d.schedule[0] == 0 && d.schedule[1..] == Zeros(g - 1) + rest;
    assert Arrived(d) == Device([], stream, Zeros(g - 1) + rest);
    var d' := Device([], stream[1..], Zeros(g - 1) + rest);
    assert Received(d) == (Some(stream[0]), d');
    if g == 1 {
      assert Zeros(0) + rest == rest;
    } else {
      assert d'.schedule[0] == 0 && d'.schedule[1..] == rest;
      assert Arrived(d') == Device([], stream[1..], rest);
      assert TryReceived(d') == (None, Arrived(d'));
    }
  }

  lemma {:induction false} LoneReads(stream: seq<View>, batch: nat, k: nat, rest: seq<nat>)
    requires k <= |stream| && batch >= 2
    ensures After(Device([], stream, Zeros(Gaps(stream, k)) + rest), batch, k) == Device([], stream[k..], rest)
  {
    if k == 0 {
      assert Zeros(0) + rest == rest;
    } else {
      var g := if stream[k - 1].Good? then 2 else 1;
      ZerosSplit(Gaps(stream, k - 1), g);
      assert Zeros(Gaps(stream, k)) + rest == Zeros(Gaps(stream, k - 1)) + (Zeros(g) + rest);
      LoneReads(stream, batch, k - 1, Zeros(g) + rest);
      LoneRead(stream[k - 1..], batch, rest);
    }
  }

  // The packet and the bad view behind it arrive for one read.
  lemma PairRead(stream: seq<View>, batch: nat)
    requires |stream| >= 2 && stream[0].Good? && stream[1] == Bad && batch >= 2
    ensures ReadOf(Device([], stream, [0, 1]), batch) == Batch(1, false, true, Device([], stream[2..], []))
  {
    var d, d' := Device([], stream, [0, 1]), Device([], stream[1..], [1]);
    assert stream[..0] == [] && stream[0..] == stream;
    assert d.schedule[1..] == [1] && d'.schedule[1..] == [] && [Bad][1..] == [];
    assert Arrived(d) == Device([], stream, [1]) && Received(d) == (Some(stream[0]), d');
    assert [] + stream[1..][..1] == [Bad] && stream[1..][1..] == stream[2..];
    assert Arrived(d') == Device([Bad], stream[2..], []);
    assert TryReceived(d') == (Some(Bad), Device([], stream[2..], []));
  }

  // Packet by packet up to `i - 1`, then that packet and the bad view together.
  function LosingSchedule(stream: seq<View>, i: nat): seq<nat>
    requires 0 < i < |stream|
  {
    Zeros(Gaps(stream, i - 1)) + [0, 1]
  }

  lemma LosingTurns(stream: seq<View>, i: nat, batch: nat, session: Id)
    requires 0 < i < |stream| && stream[i] == Bad && stream[i - 1].Good? && batch >= 2
    ensures TurnsOf(Device([], stream, LosingSchedule(stream, i)), batch, FreshSamples(session, i),
                    Singles(stream, i - 1, session) + [Turn(1, true, FreshSample(session, i - 1))])
  {
    var d := Device([], stream, LosingSchedule(stream, i));
    var turns := Singles(stream, i - 1, session) + [Turn(1, true, FreshSample(session, i - 1))];
    SinglesRead(stream, i - 1, session, batch);
    forall k: nat | k < i
      ensures turns[k] == TurnOf(After(d, batch, k), batch, FreshSample(session, k))
    {
      if k < i - 1 {
        LoneTurn(stream, batch, k, i - 1, session);
      } else {
        LoneReads(stream, batch, i - 1, [0, 1]);
        PairRead(stream[i - 1..], batch);
      }
    }
  }

  lemma {:induction false} SingleAt(stream: seq<View>, n: nat, session: Id, k: nat)
    requires k < n <= |stream|
    ensures |Singles(stream, n, session)| == n
    ensures Singles(stream, n, session)[k]
            == var sample := FreshSample(session, k);
               if stream[k].Good? then Turn(1, false, sample) else Turn(0, true, sample)
  {
    if n > 1 {
      SingleAt(stream, n - 1, session, if k < n - 1 then k else 0);
    }
  }

  lemma LoneTurn(stream: seq<View>, batch: nat, k: nat, n: nat, session: Id)
    requires k < n < |stream| && batch >= 2
    ensures |Singles(stream, n, session)| == n
    ensures Singles(stream, n, session)[k]
            == TurnOf(After(Device([], stream, Zeros(Gaps(stream, n)) + [0, 1]), batch, k), batch,
                      FreshSample(session, k))
  {
    SingleAt(stream, n, session, k);
    var g := if stream[k].Good? then 2 else 1;
    GapsGrow(stream, k, n);
    var later := Gaps(stream, n) - Gaps(stream, k) - g;
    var rest := Zeros(later) + [0, 1];
    ZerosSplit(Gaps(stream, k), g + later);
    ZerosSplit(g, later);
    assert Zeros(Gaps(stream, n)) + [0, 1] == Zeros(Gaps(stream, k)) + (Zeros(g) + rest);
    LoneReads(stream, batch, k, Zeros(g) + rest);
    LoneRead(stream[k..], batch, rest);
  }

  lemma {:induction false} GapsGrow(stream: seq<View>, k: nat, n: nat)
    requires k < n <= |stream|
    ensures Gaps(stream, k) + (if stream[k].Good? then 2 else 1) <= Gaps(stream, n)
  {
    if k < n - 1 {
      GapsGrow(stream, k, n - 1);
    }
  }

  lemma LosingTurnsLose(stream: seq<View>, i: nat, batch: nat, session: Id, capacity: nat)
    requires 0 < i < |stream| && stream[i] == Bad && stream[i - 1].Good? && batch >= 2
    ensures var turns := Singles(stream, i - 1, session) + [Turn(1, true, FreshSample(session, i - 1))];
            && Reads(stream, turns, batch) && Unhindered(turns) && Start(turns, |turns|) == i + 1
            && Packets(Deliver(stream, turns, |turns|, capacity)) != Readable(stream, i + 1, capacity)
  {
    var before, t := Singles(stream, i - 1, session), Turn(1, true, FreshSample(session, i - 1));
    SinglesRead(stream, i - 1, session, batch);
    var turns := before + [t];
    AddTurn(stream, before, t, batch, capacity);
    DeliversAllIffNoLoss(stream, turns, batch, capacity);
    assert Loses(turns[i - 1]);
  }

  /** The condition is exact: where a bad view directly follows a readable packet, the
      pump on a device with the schedule below, a usable session that is new in every turn,
      and no write error, loses that packet. The one-packet pump never does. */
  lemma UnseparatedLoses(stream: seq<View>, i: nat, batch: nat, session: Id, capacity: nat)
    returns (schedule: seq<nat>, samples: seq<Sample>, turns: seq<Turn>)
    requires 0 < i < |stream| && stream[i] == Bad && stream[i - 1].Good? && batch >= 2
    ensures TurnsOf(Device([], stream, schedule), batch, samples, turns)
    ensures Reads(stream, turns, batch) && Unhindered(turns) && Start(turns, |turns|) == i + 1
    ensures forall a, b | 0 <= a < b < |samples| :: samples[a].session != samples[b].session
    ensures Packets(Deliver(stream, turns, |turns|, capacity)) != Readable(stream, i + 1, capacity)
  {
    schedule, samples := LosingSchedule(stream, i), FreshSamples(session, i);
    turns := Singles(stream, i - 1, session) + [Turn(1, true, FreshSample(session, i - 1))];
    LosingTurns(stream, i, batch, session);
    LosingTurnsLose(stream, i, batch, session, capacity);
  }

  lemma ShimNeverLoses(stream: seq<View>, shim: seq<Turn>, capacity: nat)
    requires Reads(stream, shim, 1) && Unhindered(shim) && Start(shim, |shim|) <= |stream|
    ensures Packets(Deliver(stream, shim, |shim|, capacity)) == Readable(stream, Start(shim, |shim|), capacity)
  {
    forall b | 0 <= b < |shim|
      ensures !Loses(shim[b])
    {
      assert TurnAtReads(stream, shim, 1, b);
    }
    DeliversAllIffNoLoss(stream, shim, 1, capacity);
  }
}
