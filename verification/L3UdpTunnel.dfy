/**
  The UDP-only leg of mix mode (cmd/l3_udp_tunnel.go): the dial that starts the lazy loop
  and asks for the tunnel. Its flag and its token are those of DemandGate.
 */
module L3UdpTunnel {
  import opened DemandGate

  datatype Dialed = Connected | TunnelDisconnected | DialError

  // What the others leave of the flag and the token while a dial is under way.
  datatype Meanwhile = Meanwhile(up: bool, demand: bool)

  class UdpTunnel {
    var started: bool
    var up: bool
    var demand: bool                   // the token in the channel of capacity one

    // What the gate machine sees of this object.
    ghost predicate Shows(g: Gate)
      reads this
    {
      g.up == up && g.token == demand && (g.stage != NotStarted <==> started)
    }

    constructor ()
      ensures !started && !up && !demand
      ensures forall cfg :: Shows(Init(cfg, false).g)
    {
      started, up, demand := false, false, false;
    }

    method SignalDemand()
      modifies this`demand
      ensures demand
    {
      if !demand {
        demand := true;
      }
    }

    /** A datagram that meets the leg down, before its dial or after a failed one, is turned
        away and leaves a token behind; any other failure is the caller's, and asks for
        nothing. The loop has been started in every case. */
    method DialUDP(dialOk: bool, later: Meanwhile) returns (r: Dialed)
      modifies this
      ensures started
      ensures r == TunnelDisconnected <==> !old(up) || (!dialOk && !later.up)
      ensures r == Connected <==> old(up) && dialOk
      ensures up == if old(up) then later.up else false
      ensures demand == (r == TunnelDisconnected || later.demand)
      ensures forall g | old(Shows(g)) ::
                var (g1, c1) := ActClient(g, Start, true);
                var (g2, c2) := ActClient(g1, c1, true);
                && (c2 == Signal <==> !old(up)) && (c2 == Dialing <==> old(up))
                && (!old(up) ==> Shows(ActClient(g2, c2, true).0))
      ensures forall g: Gate | old(up) && g.stage != NotStarted && g.up == later.up && g.token == later.demand ::
                var (g1, c1) := ActClient(g, Dialing, dialOk);
                var (g2, c2) := ActClient(g1, c1, true);
                && (r == Connected <==> c1 == Finished)
                && (r == TunnelDisconnected <==> c2 == Signal)
                && Shows(ActClient(g2, c2, true).0)
    {
      if !started {
        started := true;
      }
      if !up {
        SignalDemand();
        return TunnelDisconnected;
      }
      up, demand := later.up, later.demand;
      if dialOk {
        return Connected;
      }
      if !up {
        SignalDemand();
        return TunnelDisconnected;
      }
      return DialError;
    }
  }
}
