/**
  The runtime object of cmd/socks_runtime.go: the tunnel flag, the one-token demand
  channel, and the downstream connections that a tunnel loss resets. The methods are
  the accesses that DemandGate interleaves.
 */
module SocksRuntime {
  import opened DemandGate

  /** A tracked connection: the once-guard closes it and untracks it together. */
  class ManagedConn {
    const runtime: Runtime
    var closed: bool
    ghost var closes: nat

    constructor (runtime: Runtime)
      ensures this.runtime == runtime && !closed && closes == 0
    {
      this.runtime, closed, closes := runtime, false, 0;
    }

    ghost predicate Valid()
      reads this
    {
      closes == if closed then 1 else 0
    }

    method Close()
      requires Valid()
      modifies this, runtime`activeConns
      ensures Valid() && closed
      ensures runtime.activeConns
              == if old(closed) then old(runtime.activeConns) else old(runtime.activeConns) - {this}
    {
      if !closed {
        closed, closes := true, closes + 1;
        runtime.activeConns := runtime.activeConns - {this};
      }
    }
  }

  /** A connection as it was accepted, not tracked yet. */
  class Accepted {
    var closed: bool

    constructor ()
      ensures !closed
    {
      closed := false;
    }

    method Close()
      modifies this
      ensures closed
    {
      closed := true;
    }
  }

  class Runtime {
    var tunnelUp: bool
    var demand: bool                   // the token in the channel of capacity one
    var activeConns: set<ManagedConn>

    ghost predicate Valid()
      reads this, activeConns
    {
      forall m | m in activeConns :: m.runtime == this && m.Valid() && !m.closed
    }

    // What the gate machine sees of this object.
    ghost predicate Shows(g: Gate)
      reads this
    {
      g.up == tunnelUp && g.token == demand
    }

    constructor ()
      ensures Valid() && !tunnelUp && !demand && activeConns == {}
      ensures forall cfg, started :: Shows(Init(cfg, started).g)
    {
      tunnelUp, demand, activeConns := false, false, {};
    }

    method SetTunnelUp(up: bool) returns (publish: bool)
      modifies this`tunnelUp
      ensures tunnelUp == up && publish == (old(tunnelUp) != up)
      ensures forall g | old(Shows(g)) && g.stage.GoingUp? && up :: Shows(ActLoop(g, false, false, false))
      ensures forall g, err | old(Shows(g)) && g.stage.GoingDown? && !up :: Shows(ActLoop(g, false, false, err))
    {
      publish := tunnelUp != up;
      tunnelUp := up;
    }

    method SignalDemand()
      modifies this`demand
      ensures demand
      ensures forall g | old(Shows(g)) :: Shows(DemandGate.SignalDemand(g))
    {
      if !demand {
        demand := true;
      }
    }

    method DrainDemand()
      modifies this`demand
      ensures !demand
      ensures forall g, racing | old(Shows(g)) && g.stage.Draining? :: Shows(ActLoop(g, racing, false, false))
    {
      if demand {
        demand := false;
      }
    }

    /** One poll of WaitForReconnectDemand: the token wakes the loop and is consumed. */
    method PollDemand() returns (woken: bool)
      modifies this`demand
      ensures woken == old(demand) && !demand
      ensures forall g | old(Shows(g)) && g.stage.Parked? && !g.done ::
                Shows(ActLoop(g, false, true, false))
                && (ActLoop(g, false, true, false).stage.AtTop? <==> woken)
    {
      woken := demand;
      if woken {
        demand := false;
      }
    }

    /** An accepted connection is dropped, that is closed, exactly while the tunnel is down,
        and then the drop leaves a token behind. */
    method DropIfDisconnected(conn: Accepted) returns (dropped: bool)
      modifies this`demand, conn
      ensures dropped == !tunnelUp && demand == (old(demand) || dropped)
      ensures conn.closed == (old(conn.closed) || dropped)
      ensures forall g | old(Shows(g)) ::
                var (g', c) := ActClient(g, Check(false), true);
                (c.Signal? <==> dropped) && Shows(if dropped then ActClient(g', c, true).0 else g')
    {
      if tunnelUp {
        return false;
      }
      SignalDemand();
      conn.Close();
      return true;
    }

    method TrackConn() returns (m: ManagedConn)
      requires Valid()
      modifies this`activeConns
      ensures Valid() && fresh(m) && m.runtime == this && activeConns == old(activeConns) + {m}
    {
      m := new ManagedConn(this);
      activeConns := activeConns + {m};
    }

    /** Closes every tracked connection, each exactly once, and tracks none afterwards. */
    method ResetTrackedConns() returns (count: nat)
      requires Valid()
      modifies this`activeConns, activeConns
      ensures Valid() && activeConns == {} && count == |old(activeConns)|
      ensures forall m | m in old(activeConns) :: m.closed && m.closes == 1
    {
      ghost var tracked := activeConns;
      var todo := activeConns;
      count := 0;
      while todo != {}
        invariant todo <= tracked && activeConns == todo && count + |todo| == |tracked|
        invariant forall m | m in todo :: m.runtime == this && m.Valid() && !m.closed
        invariant forall m | m in tracked - todo :: m.closed && m.closes == 1
        modifies this`activeConns, tracked
        decreases |todo|
      {
        var m :| m in todo;
        m.Close();
        todo, count := todo - {m}, count + 1;
      }
    }
  }
}
