/**
  The state that all goroutines of one L4Proxy share (api/l4proxy.go), the
  effect of each of its critical sections, and the effect of each whole call
  when nothing interrupts it. A connection is named by the number of the dial
  that built it; time is in nanoseconds and 0 means "no run of failures".
 */
module L4Shared {
  import opened Options

  type Conn = nat

  datatype Shared = Shared(closed: bool, conn: Option<Conn>, reconnects: nat, firstFail: nat)

  datatype Found = ProxyClosed | Cached(c: Conn) | Absent

  // The critical sections, one function each.

  function Lookup(sh: Shared): Found {
    if sh.closed then ProxyClosed else if sh.conn.Some? then Cached(sh.conn.value) else Absent
  }

  function StoreBuilt(sh: Shared, c: Conn): Shared {
    if sh.closed then sh else sh.(conn := Some(c))
  }

  predicate StillCurrent(sh: Shared, stale: Option<Conn>) {
    sh.conn.Some? && (stale.Some? ==> sh.conn == stale)
  }

  function TakeStale(sh: Shared, stale: Option<Conn>): Shared {
    if StillCurrent(sh, stale) then sh.(conn := None) else sh
  }

  function TakeAll(sh: Shared): Shared {
    sh.(closed := true, conn := None)
  }

  // The whole calls.

  function TearDown(sh: Shared, stale: Option<Conn>): Shared {
    if StillCurrent(sh, stale)
    then sh.(conn := None, firstFail := 0, reconnects := sh.reconnects + 1)
    else sh
  }

  function NoteFailure(sh: Shared, timeout: nat, c: Conn, cancelled: bool, now: nat): Shared {
    if cancelled || sh.conn != Some(c) then sh
    else if sh.firstFail == 0 then sh.(firstFail := now)
    else if now - sh.firstFail >= 2 * timeout then TearDown(sh, Some(c))
    else sh
  }

  function Answered(sh: Shared): Shared {
    sh.(firstFail := 0)
  }

  /** The proxy object. `udpConn`, `quicConn` and `clientConn` are three handles
      on one dialed connection; `gone` records what closeL4HTTP3 has closed. */
  class L4Proxy {
    const connectTimeout: nat
    var closed: bool
    var udpConn: Option<Conn>
    var quicConn: Option<Conn>
    var clientConn: Option<Conn>
    var reconnects: nat
    var firstFailNanos: nat
    ghost var goneUDP: set<Conn>
    ghost var goneQUIC: set<Conn>

    ghost predicate Valid()
      reads this
    {
      udpConn == quicConn == clientConn && goneUDP == goneQUIC
    }

    ghost function Abs(): Shared
      reads this
    {
      Shared(closed, clientConn, reconnects, firstFailNanos)
    }

    constructor (timeout: nat)
      ensures Valid() && connectTimeout == timeout
      ensures Abs() == Shared(false, None, 0, 0) && goneQUIC == {}
    {
      connectTimeout := timeout;
      closed, udpConn, quicConn, clientConn := false, None, None, None;
      reconnects, firstFailNanos := 0, 0;
      goneUDP, goneQUIC := {}, {};
    }

    /** dialConn looks the cached connection up twice, each time under the lock. */
    method LookupConn() returns (found: Found)
      ensures found == Lookup(Abs())
    {
      if closed {
        return ProxyClosed;
      }
      match clientConn
      case Some(c) => return Cached(c);
      case None => return Absent;
    }

    /** The last critical section of dialConn: a connection built while Close
        ran is closed instead of stored. */
    method FinishDial(c: Conn) returns (stored: bool)
      requires Valid()
      modifies this
      ensures Valid()
      ensures Abs() == StoreBuilt(old(Abs()), c)
      ensures stored == !old(closed)
      ensures goneQUIC == old(goneQUIC) + if stored then {} else {c}
    {
      if closed {
        CloseHTTP3(Some(c), Some(c));
        return false;
      }
      udpConn, quicConn, clientConn := Some(c), Some(c), Some(c);
      return true;
    }

    method CloseHTTP3(udp: Option<Conn>, quic: Option<Conn>)
      modifies this`goneUDP, this`goneQUIC
      ensures goneUDP == old(goneUDP) + if udp.Some? then {udp.value} else {}
      ensures goneQUIC == old(goneQUIC) + if quic.Some? then {quic.value} else {}
    {
      if quic.Some? {
        goneQUIC := goneQUIC + {quic.value};
      }
      if udp.Some? {
        goneUDP := goneUDP + {udp.value};
      }
    }

    /** closeConn: tears the cached connection down if it is still the one the
        caller saw. */
    method CloseConn(stale: Option<Conn>)
      requires Valid()
      modifies this
      ensures Valid()
      ensures Abs() == TearDown(old(Abs()), stale)
      ensures goneQUIC == old(goneQUIC)
                          + if StillCurrent(old(Abs()), stale) then {old(clientConn).value} else {}
    {
      if clientConn == None || (stale != None && clientConn != stale) {
        return;
      }
      var udp, quic := udpConn, quicConn;
      udpConn, quicConn, clientConn := None, None, None;
      firstFailNanos := 0;
      reconnects := reconnects + 1;
      CloseHTTP3(udp, quic);
    }

    method NoteConnFailure(c: Conn, cancelled: bool, now: nat)
      requires Valid()
      modifies this
      ensures Valid()
      ensures Abs() == NoteFailure(old(Abs()), connectTimeout, c, cancelled, now)
      ensures goneQUIC == old(goneQUIC) + if old(clientConn) == Some(c) && clientConn == None then {c} else {}
    {
      if cancelled {
        return;
      }
      if clientConn != Some(c) {
        return;
      }
      var first := firstFailNanos;
      if first == 0 {
        firstFailNanos := now;
        return;
      }
      if now - first >= 2 * connectTimeout {
        CloseConn(Some(c));
      }
    }

    method Close()
      requires Valid()
      modifies this
      ensures Valid()
      ensures Abs() == TakeAll(old(Abs()))
      ensures goneQUIC == old(goneQUIC) + if old(clientConn).Some? then {old(clientConn).value} else {}
    {
      closed := true;
      var udp, quic := udpConn, quicConn;
      udpConn, quicConn, clientConn := None, None, None;
      CloseHTTP3(udp, quic);
    }
  }
}
