# Verified model of the USCF proxy's reconnect and relay machinery

USCF serves a SOCKS5 proxy over Cloudflare WARP. This project models, in Dafny, the parts of it
that are small concurrent protocols, each with a real invariant, and the exact algorithms beside
them, and proves what they promise over every run and every input.

Connections, sessions and goroutines are numbers. Time is a whole number of nanoseconds; the clock
readings, the outcome of a dial, read, write or lookup, and the moment a context is cancelled are
inputs, so every statement holds for all of them. A concurrent component is a state machine whose
steps are the source's own critical sections, channel operations and atomic accesses; a run is any
finite sequence of steps of any number of goroutines. Where the source updates an object in place,
a class does the same, and its methods are proved equal to the functions the machine is built from.

| file | what it models |
|---|---|
| `L4Shared.dfy` | the shared QUIC connection object: its critical sections and its whole calls |
| `L4Interleaving.dfy` | any number of dials, failing openers and `Close` calls on it, interleaved |
| `L4Wedge.dfy` | the wedge detector over histories of whole calls, and a run that shows what interleaving costs it |
| `L4Stamps.dfy` | the exact condition under which an interleaved first failure trips it |
| `L4Causes.dfy` | what a dial may do to the connection: nothing once cancelled, nothing without its own failure; and the whole calls as runs |
| `TunnelLoop.dfy` | the reconnect loop: attempt counter, cap, callbacks, demand wait |
| `DemandGate.dfy` | the demand token between the clients and that loop |
| `DemandSignals.dfy` | who asks for the tunnel: every client that found it down |
| `DemandTrace.dfy` | the gate's loop refines the reconnect loop |
| `SocksRuntime.dfy` | the runtime object that holds the flag, the token and the tracked connections |
| `L3UdpTunnel.dfy` | the dial of the lazy UDP leg |
| `ForwardSessions.dfy` | sessions swapped under the long-lived pump, first-error-wins reporting |
| `ForwardHandlers.dfy` | what a handler of a session returns, and that a reported error reaches it |
| `DevicePump.dfy` | the batched device read and the pump loop, against the one-packet shim |
| `PumpSessions.dfy` | the pump sampling the sessions of one run |
| `UdpSlots.dfy` | the UDP semaphore shared by all associations, with its four teardown paths (section 7 of RFC 1928) |
| `UdpFlows.dfy` | the life of one UDP flow over those slots |
| `TcpRelay.dfy` | the two-way TCP relay with half-close (section 3.6 of RFC 9293) |
| `WgSupervisor.dfy` | the polled WireGuard watchdog and its recovery backoff |
| `ResolverCache.dfy`, `ResolverFlights.dfy` | the caching resolver: the locked cache, and the goroutines around it |
| `DialDeadlines.dfy` | deadline splitting over the addresses of a name |
| `DomainName.dfy` | the one-pass domain-name scanner against a label grammar (sections 2.3.1 and 2.3.4 of RFC 1035, relaxed) |
| `Backoff.dfy` | exponential backoff |
| `TimeoutConn.dfy`, `IdleRace.dfy` | lazily re-armed idle deadlines, alone and racing with a change of the bound |
| `BypassDomain.dfy` | the bypass suffix matcher |
| `DeviceName.dfy` | device-name normalisation |
| `Options.dfy`, `Naturals.dfy` | the optional value, the smaller of two numbers |

## Findings

Six things that the source's comments suggest, or that a reader would expect, hold of the code only
under a condition. Beside each stands the condition, and a theorem that it is exact.

- **A wedge trip never follows a single failure.** Taking each call as one step this holds
  (`WedgeTrips`, an if and only if). With the separate atomic accesses of `noteConnFailure` and
  `closeConn` it depends on the moment the connection was stored: it can be torn down on its first
  failure if and only if a stamp was then in force, or some goroutine was on its way to set one
  (`FirstFailureTripsIff`). The first happens when a teardown has taken the old connection but not
  yet cleared the stamp, the second when a failure of the old connection passed its check in time.
  After a clean store every trip has an earlier failure of the same connection behind it, with no
  answer and no teardown up to the moment the deciding goroutine read the stamp
  (`CleanStoreBacksEveryTrip`). An answer after that moment is not seen (`AnswerAfterLoadIgnored`).
- **The shorter idle bound always wins** (comment at models/net.go:53-56). For a read this holds
  unless, and only unless, it loads the bound before the change and the generation after it
  (`ShorterBoundWinsIff`); that order occurs (`ShorterBoundCanLose`). A write has one more exception,
  because a change does not bound a write that is already blocked (`WriteBoundIff`,
  `BlockedWriteKeepsBound`); the first call that begins after the change is bound by it, again unless
  it was overtaken (`NextCallIsBound`).
- **No reconnect without fresh demand.** A drain of the lazy loop can be followed by a wakeup that
  nobody has asked for since the loss if and only if some client stands between its flag check and
  its signal at that drain (`DrainThenStaleIff`).
- **The batched pump is equivalent to the one-packet shim** for every stream in which no unreadable
  view directly follows a readable packet (`BatchedRefinesShim`). Where one does, `UnseparatedLoses`
  gives the arrival schedule with which the batched pump drops the packet read before it: `Read`
  returns a count with an error, and the pump ignores the count. A view's read fails only when the
  view is empty (gVisor's buffer, which decides this, is not part of this model), and the views that
  `WriteNotify` queues are whole packets with their headers. Nothing here shows that an empty one
  arises; the result says what the loop would do with it.
- **Every address of a list gets a turn** before the caller's deadline, whatever the attempts do with
  their time, exactly when more than 2 s are there for each address but the last (`AllReachedIff`,
  and `DialContext` for the loop itself; `LastAddressStarves` for the other case).
- **A datagram goes out on an upstream that holds its slot.** For the goroutine that inserted the
  upstream, and only about it, this holds if and only if the association is open or a close has taken
  the upstream and not reached it yet (`ServedUpstreamIsLiveIff`). A close can always come between the
  insert and the first write (`CloseOvertakesFirstWrite`). The writes of other datagrams to an upstream
  they found in the map (cmd/socks_adapter.go:468 and 520) are left out.

## Model

| member | source | states |
|---|---|---|
| `L4Shared.L4Proxy.FinishDial` | api/l4proxy.go:204-214 | a finished build is stored, or, if Close came first, closed and not stored; the three handles stay one connection |
| `L4Shared.L4Proxy.LookupConn` | api/l4proxy.go:154-163 | closed wins over cached, cached over absent |
| `L4Shared.L4Proxy.CloseConn` | api/l4proxy.go:226-257 | only the connection the caller saw is torn down, and exactly then the run of failures is cleared, the counter raised and both handles closed |
| `L4Shared.L4Proxy.NoteConnFailure` | api/l4proxy.go:296-319 | the first unanswered failure stamps, one at least 2 connect timeouts later tears down, a cancelled or outdated one does nothing |
| `L4Shared.L4Proxy.Close` | api/l4proxy.go:139-147 | nothing stays cached, the cached connection is closed |
| `L4Interleaving.OneBuilderAtATime` | api/l4proxy.go:165-200 | in every interleaving at most one goroutine is building |
| `L4Interleaving.StoreNeverOverwrites` | api/l4proxy.go:152-220 | no step replaces a cached connection by another |
| `L4Interleaving.ExactlyOnePlace` | api/l4proxy.go:139-257 | every connection ever dialed is in exactly one place: cached, closed, or owned by one goroutine that must store or close it |
| `L4Interleaving.NothingCachedAfterClose` | api/l4proxy.go:139-147 | after Close nothing is ever cached |
| `L4Interleaving.NoLeakAfterClose` | api/l4proxy.go:139-220 | once closed and all calls have returned, every connection ever dialed is closed |
| `L4Interleaving.BooksBalance` | api/l4proxy.go:204-257 | stores = reconnects + teardowns whose increment is pending + cached + taken by Close |
| `L4Interleaving.ReportActedOn` | api/l4proxy.go:226-240 | right after a report on a connection is acted on, it has left the cache exactly once |
| `L4Interleaving.DeadConnTornDownOnce` | api/l4proxy.go:226-257 | however many goroutines report the same dead connection, before or after, it is torn down or taken exactly once and never cached again |
| `L4Wedge.WedgeTrips` | api/l4proxy.go:296-319 | a failure tears the connection down if and only if it is not cancelled, on the cached connection, and an earlier failure of that connection at least 2 connect timeouts old has had no answer and no teardown since; otherwise the cache stays; a cancelled dial changes nothing |
| `L4Wedge.StampHasCause` | api/l4proxy.go:305-311 | a stamp in force comes from a recorded, still unanswered failure of the cached connection |
| `L4Wedge.CauseKeepsStamp` | api/l4proxy.go:305-319 | as long as a failure stays unanswered, the stamp is at most as late as it |
| `L4Wedge.StampTellsLongUnanswered` | api/l4proxy.go:305-319 | the stamp's age tells exactly whether some failure has been unanswered for 2 connect timeouts |
| `L4Wedge.CloseConnAlone` | api/l4proxy.go:226-257 | the interleaved steps of closeConn, run alone, are the whole call |
| `L4Wedge.NoteConnFailureAlone` | api/l4proxy.go:296-319 | the interleaved steps of noteConnFailure, past its check of the context, are the whole call when run alone |
| `L4Wedge.FirstFailureCanTrip` | api/l4proxy.go:235-319 | interleaved, the first failure ever reported on a connection can tear it down |
| `L4Stamps.CleanStoreBacksEveryTrip` | api/l4proxy.go:296-319 | after a clean store, for as long as the connection is cached, whoever decides on one of its failures decides by an earlier failure of it, with no answer and no teardown between that stamp and its own load; at least two failures are recorded by then |
| `L4Stamps.UncleanStoreCanTrip` | api/l4proxy.go:204-257 | from every other store some continuation, with clock readings as late as one likes, tears the connection down on its first failure |
| `L4Stamps.FirstFailureTripsIff` | api/l4proxy.go:204-319 | so a first failure can trip if and only if the store was not clean |
| `L4Stamps.AnswerAfterLoadIgnored` | api/l4proxy.go:308-319 | an answer between the load and the decision changes nothing: the connection is torn down |
| `L4Causes.CancelledDialDoesNothing` | api/l4proxy.go:379-394 | from the step in which a dial sees its caller cancelled on, at the semaphore, at the stream open or in the CONNECT, none of its steps changes anything: no teardown, no recorded failure, no stamp |
| `L4Causes.TeardownHasCause` | api/l4proxy.go:375-395 | whoever tears the cached connection down has itself failed on it before, uncancelled: on opening a stream, or on a CONNECT |
| `L4Causes.EachConnectFailureIsNoted` | api/l4proxy.go:432-442 | over every run the failures counted against a connection are the CONNECTs that failed on it with their caller still waiting |
| `L4Causes.RetriesOnce` | api/l4proxy.go:370-397 | a dial opens again only after its first open failed, and never a third time |
| `L4Causes.NeverStuck` | api/l4proxy.go:152-220 | while a call is unfinished some goroutine can step, and each of its steps brings it nearer its end |
| `L4Causes.NoBuildAfterClose` | api/l4proxy.go:154-178 | after Close no dial begins to build |
| `L4Causes.CallAlone` | api/l4proxy.go:139-459 | each call of the wedge detector's histories, the cancelled failure included, is an uninterrupted run of the interleaved steps: it has that call's effect, closes the connection it removes, and goes on where the source does |
| `TunnelLoop.HandleConnection` | api/tunnel.go:235-328 | a failed connect counts one more, an established one reports up and then down and resets the count |
| `TunnelLoop.MaintainTunnel` | api/tunnel.go:364-442 | every trace of the loop obeys the event rules; it follows the world's outcomes in order, stops early only for ctx or at the cap, and does stop for ctx |
| `TunnelLoop.AttemptCountsTheRun` | api/tunnel.go:381-427 | the number given to NextDelay is the current run of failed connects |
| `TunnelLoop.CapHolds` | api/tunnel.go:408-421 | never more than the cap of consecutive failures, and no connect after the last of them |
| `TunnelLoop.OneDemandPerLoss` | api/tunnel.go:391-406 | in lazy mode exactly one demand wait lies between a loss and the next connect |
| `TunnelLoop.CallbacksAlternate` | api/tunnel.go:235-328 | OnConnected and OnDisconnected alternate strictly |
| `TunnelLoop.OneDelayPerFailure` | api/tunnel.go:423-440 | between a failed connect, or a loss outside lazy mode, and the next connect lies exactly one delay |
| `TunnelLoop.DelayHasCause` | api/tunnel.go:423-440 | a delay comes only right after a failed connect, or a loss outside lazy mode |
| `TunnelLoop.ResetHasCause` | api/tunnel.go:405-442 | the strategy is reset only right after a clean end or a demand |
| `DemandGate.NoLostWakeup` | cmd/socks_runtime.go:55-72 | in every reachable state, a loop parked after a client signalled finds the token and goes on |
| `DemandGate.NoStaleWakeup` | cmd/proxy.go:1113-1127 | if nobody stood between check and signal at the drain, no token exists while up, and a parked loop goes on only after a signal that followed the loss |
| `DemandGate.StaleWakeupHappens` | cmd/socks_runtime.go:137-146 | without that condition a stale token does wake the loop |
| `DemandGate.DrainThenStaleIff` | cmd/proxy.go:1113-1117 | from every reachable drain of a lazy loop that is not cancelled: a stale wakeup can follow before the next drain if and only if some client stands between check and signal |
| `DemandGate.RunKeepsInv` | cmd/l3_udp_tunnel.go:51-108 | the gate invariant holds in every run, the lazily started UDP leg included |
| `DemandSignals.SeenDownIsAsked` | cmd/l3_udp_tunnel.go:53-70 | in every run, a client that read the flag as down, at first or after its failed dial, signals after that read and before it finishes |
| `DemandSignals.AskedIff` | cmd/socks_runtime.go:55-60 | the gate's mark of a request holds if and only if some client's signal has completed since the last loss |
| `DemandSignals.TurnedAwayWakes` | cmd/l3_udp_tunnel.go:46-70 | a loop parked behind a connection or a datagram that was turned away since the loss finds the token, and its next step reconnects |
| `DemandSignals.FinishedHasReason` | cmd/l3_udp_tunnel.go:50-79 | a client that has finished asked for the tunnel, found it up, or got its connection |
| `DemandSignals.DatagramStarts` | cmd/l3_udp_tunnel.go:51 | the first datagram starts the loop before it looks at the flag, and for good |
| `DemandTrace.GateTraceIsLegal` | api/tunnel.go:364-442 | in every run, whatever the clients do, the gate's loop reports a trace that the reconnect loop may report |
| `DemandTrace.StandsStillOnlyWaiting` | api/tunnel.go:391-421 | the loop stands still only unstarted, parked without a token, paused at the cap, or stopped; it parks only after a loss in lazy mode, pauses only at the cap, stops only when cancelled |
| `L3UdpTunnel.UdpTunnel.DialUDP` | cmd/l3_udp_tunnel.go:50-79 | which datagrams are dialed, turned away or failed, whatever happens to the flag during the dial; one turned away leaves a token, and the steps are those of the gate's client |
| `SocksRuntime.Runtime.SetTunnelUp` | cmd/socks_runtime.go:87-91 | the flag is set and published exactly when it changes, as the gate's up and down steps say |
| `SocksRuntime.Runtime.SignalDemand` | cmd/socks_runtime.go:55-60 | a burst leaves one token |
| `SocksRuntime.Runtime.PollDemand` | cmd/socks_runtime.go:64-71 | a waiter wakes exactly when the token is there, and consumes it |
| `SocksRuntime.Runtime.DrainDemand` | cmd/socks_runtime.go:76-81 | no token is left |
| `SocksRuntime.Runtime.DropIfDisconnected` | cmd/socks_runtime.go:137-158 | a connection is dropped, that is closed, exactly while the tunnel is down, and a drop leaves a token |
| `SocksRuntime.Runtime.TrackConn` | cmd/socks_runtime.go:161-170 | exactly the new connection is added |
| `SocksRuntime.Runtime.ResetTrackedConns` | cmd/socks_runtime.go:180-198 | every tracked connection is closed exactly once and none stays tracked |
| `SocksRuntime.ManagedConn.Close` | cmd/socks_runtime.go:215-224 | closes and untracks once, however often it is called |
| `ForwardSessions.OnlyFirstErrorIsSent` | api/forwarding_supervisor.go:151-162 | the first error reported for a session is the only one ever sent, and no report is dropped |
| `ForwardSessions.ReportClosesSession` | api/forwarding_supervisor.go:151-162 | when any report has returned, the session is closed and its first error was sent |
| `ForwardSessions.DisplacedGetsClosed` | api/forwarding_supervisor.go:82-135 | a session that is no longer active is closed, or some goroutine's next step closes it |
| `ForwardSessions.HandlerLeavesNothing` | api/forwarding_supervisor.go:307-323 | after handleForwarding its session is closed and not active |
| `ForwardSessions.ActiveIsOpenUnlessReported` | api/forwarding_supervisor.go:82-162 | while a session is the active one, nothing closes it but a reported error |
| `ForwardHandlers.HandlerReturnsFirstError` | api/forwarding_supervisor.go:307-320 | a handler that returns an error returns the first one reported for its session |
| `ForwardHandlers.ReportWakesHandler` | api/forwarding_supervisor.go:151-162 | once a report has returned, the handler of that session, if it still waits, leaves its wait in its next step, with the first error unless its context is done |
| `ForwardHandlers.EmptyHandedByCtx` | api/forwarding_supervisor.go:317-322 | a handler that returns without a reported error was told so by its context |
| `ForwardHandlers.FirstReportAlone` | api/forwarding_supervisor.go:151-162 | the first report on a session, run alone, sends its error and closes the session, and does nothing else |
| `ForwardHandlers.NobodyHangs` | api/forwarding_supervisor.go:82-162 | apart from handlers with nothing to return for, every unfinished goroutine, or whoever is inside the same errOnce, comes nearer its end by its next step |
| `ForwardSessions.SerialAttachesAscend` | api/forwarding_supervisor.go:98-116 | attaches that do not overlap activate sessions in the order of their ids |
| `ForwardSessions.SampledNeverGoesBack` | api/forwarding_supervisor.go:98-143 | then whoever samples the active session twice never sees an older one the second time |
| `DevicePump.NetTun.Read` | internal/netstack/tun.go:171-202 | what is read, for every queue and arrival schedule; the buffers receive a prefix of the queued packets in order, whole if they fit; a short batch means an empty queue; an error tells how many came before it |
| `DevicePump.RunDeviceToIP` | api/forwarding_supervisor.go:164-255 | for every arrival schedule, the turns are those of the device, what reaches WritePacket is what they deliver, and the rest of the stream is untouched |
| `DevicePump.WriteBatch` | api/forwarding_supervisor.go:213-231 | a batch is written in order up to the first failing write, or not at all without a usable session |
| `DevicePump.EachTurnDeliversAPrefix` | api/forwarding_supervisor.go:209-231 | each batch contributes a prefix of its packets to the one session sampled for it |
| `DevicePump.DeliveryHasSource` | api/forwarding_supervisor.go:189-255 | every delivery is one packet of one batch |
| `DevicePump.DeliveriesKeepOrder` | api/forwarding_supervisor.go:189-255 | deliveries are a subsequence of what was read: one strictly increasing map gives the position of every delivery, and a packet that fits the buffers is delivered whole |
| `DevicePump.SessionsKeepOrder` | api/forwarding_supervisor.go:209-216 | if sampled ids never go back, neither do those of the deliveries |
| `DevicePump.DeliversAllIffNoLoss` | api/forwarding_supervisor.go:189-231 | unhindered, WritePacket sees every readable packet in order if and only if no batch ended in an error behind readable packets |
| `DevicePump.BatchedRefinesShim` | api/forwarding_supervisor.go:172-188 | the batched and the one-packet pump write the same packets in the same order |
| `DevicePump.UnseparatedLoses` | internal/netstack/tun.go:182-201 | where an unreadable view follows a readable packet, the pump on the given arrival schedule, with a new session in every turn, loses that packet |
| `DevicePump.ShimNeverLoses` | api/forwarding_supervisor.go:176-184 | the one-packet pump loses none |
| `PumpSessions.DeliveredSessionsAscend` | api/forwarding_supervisor.go:98-231 | in every run without overlapping attaches, whenever the pump samples, the session ids of its deliveries never go back |
| `UdpSlots.UdpAdapter.AcquireUDPSlot` | cmd/socks_adapter.go:98-105 | a slot is taken exactly when fewer than 1024 are held |
| `UdpSlots.UdpAdapter.ReleaseUDPSlot` | cmd/socks_adapter.go:109-114 | one slot back, never below none |
| `UdpSlots.CountedConn.Close` | cmd/socks_adapter.go:629-633 | closes every time, gives the slot back the first time only |
| `UdpSlots.UdpAssociation.Insert` | cmd/socks_adapter.go:511-523 | succeeds if and only if the association is open and has no entry for the destination, and then exactly that entry is added |
| `UdpSlots.UdpAssociation.Remove` | cmd/socks_adapter.go:582-588 | removes the entry only if it still names this connection |
| `UdpSlots.UdpAssociation.TakeAll` | cmd/socks_adapter.go:595-610 | the first close hands out every upstream and empties the map, later ones nothing |
| `UdpSlots.SlotsConserved` | cmd/socks_adapter.go:98-114 | over all associations: slots held = dials in progress + unreleased connections, at most 1024, and no release ever finds the semaphore empty |
| `UdpSlots.ClosedStaysEmpty` | cmd/socks_adapter.go:456-526 | a closed association never gains an upstream |
| `UdpSlots.ClosedHoldsNothing` | cmd/socks_adapter.go:456-633 | closed and with its goroutines finished, an association holds no slot, whichever mix of teardowns ran |
| `UdpSlots.FoundUpstreamIsLive` | cmd/socks_adapter.go:456-543 | an upstream found in the map is that association's connection to that destination and still holds its slot |
| `UdpSlots.ServedUpstreamIsLive` | cmd/socks_adapter.go:523-543 | while its association is open, the goroutine that inserted an upstream writes and reads while it holds its slot |
| `UdpSlots.ServedUpstreamIsLiveIff` | cmd/socks_adapter.go:523-619 | exactly: it holds its slot if and only if the association is open, or a close has taken the upstream and not reached it yet |
| `UdpSlots.CloseOvertakesFirstWrite` | cmd/socks_adapter.go:526-531 | a close can always give the slot back before the pending first write |
| `UdpFlows.FlowStarts` | cmd/socks_adapter.go:491-543 | a datagram to a new destination, with room and a dial that succeeds, takes one slot, enters the map and is relayed; nothing else changes |
| `UdpFlows.FlowFails` | cmd/socks_adapter.go:493-512 | when its dial fails everything is as before |
| `UdpFlows.NoNewFlow` | cmd/socks_adapter.go:460-498 | at the limit, for a known destination or on a closed association nothing is taken |
| `UdpFlows.FlowEnds` | cmd/socks_adapter.go:548-588 | in every run, the end of an open association's upstream removes its entry, closes it and gives back exactly its slot |
| `UdpFlows.EverySlotHasCloser` | cmd/socks_adapter.go:456-633 | in every run, for each connection that holds a slot some goroutine of its association is bound to close it |
| `UdpFlows.QuietMeansFree` | cmd/socks_adapter.go:98-114 | when all goroutines have finished all slots are free, closed associations or not |
| `UdpFlows.StepsAdvance` | cmd/socks_adapter.go:456-619 | no goroutine waits for another: every step but a relay's successful read brings it nearer its end, or starts the closing of what the association holds |
| `TcpRelay.DeliversAPrefix` | cmd/socks_adapter.go:237-245 | each direction delivers a prefix of its source, and all of it before a clean half-close |
| `TcpRelay.ReturnsWhenFinished` | cmd/socks_adapter.go:188-220 | the relay returns only after both reports with both connections closed; nil exactly when both ended cleanly, and then everything was delivered |
| `TcpRelay.CleanHalfCloseKeepsSurvivor` | cmd/socks_adapter.go:207-220 | without a failure no connection is closed before both directions have ended |
| `TcpRelay.FailedIff` | cmd/socks_adapter.go:237-245 | a direction reports a failure if and only if its read or write failed, or a connection was closed under it |
| `TcpRelay.PeacefulRunIsClean` | cmd/socks_adapter.go:188-220 | in a run whose reads and writes do not fail, nothing is closed before both reports, and the return is nil with both sources delivered |
| `TcpRelay.RelayCanFinish` | cmd/socks_adapter.go:188-220 | whatever the two sources hold, such a run to the nil return exists |
| `TcpRelay.FailureClosesBoth` | cmd/socks_adapter.go:201-203 | after a hard failure the relay closes both connections without waiting for anything |
| `TcpRelay.FailureDrains` | cmd/socks_adapter.go:204-206 | from then on every step, whatever the peers do, brings the return nearer; every unfinished copy can take one, and when both have finished the relay returns |
| `WgSupervisor.SuperviseWireGuard` | cmd/wg_transport.go:379-456 | the loop's flag, re-points and resets are those of the state after each tick |
| `WgSupervisor.DownExactlyInOutages` | cmd/wg_transport.go:408-441 | the tunnel is down exactly between a declared wedge and the next receive progress, in terms of the polled counters alone |
| `WgSupervisor.IdleStaysUp` | cmd/wg_transport.go:328-336 | a run whose transmit counter never grows never goes down |
| `WgSupervisor.FreshStaysUp` | cmd/wg_transport.go:334-336 | nor does one whose progress is always younger than the window |
| `WgSupervisor.DeclaringTickAttempts` | cmd/wg_transport.go:430-446 | the tick that declares an outage always attempts a re-point |
| `WgSupervisor.AttemptsAreSpaced` | cmd/wg_transport.go:338-344 | attempts k and k+1 of one outage are at least min(2^(k+1) s, 300 s) apart |
| `WgSupervisor.AttemptsExactlyWhenDue` | cmd/wg_transport.go:443-446 | within an outage, after attempt k the next attempt is exactly the first wedged tick at which its gap has gone by |
| `WgSupervisor.NextAttemptIsSoon` | cmd/wg_transport.go:443-446 | by any wedged tick at which that gap has gone by, the next attempt has been made |
| `WgSupervisor.AttemptsAreFew` | cmd/wg_transport.go:443-454 | an outage of length T has at most 8 + T / 300 s attempts |
| `ResolverCache.Resolver.constructor` | api/resolver.go:48-65 | zero or negative limits take their defaults, so all limits are positive |
| `ResolverCache.Resolver.Lookup` | api/resolver.go:69-78 | a hit exactly when there is an entry that has not expired; it is the last recorded outcome for that name and younger than its lifetime |
| `ResolverCache.Resolver.Record` | api/resolver.go:83-104 | the outcome is cached with the lifetime of its kind; a failure, or a success below the limit, keeps every other entry, a success at the limit evicts; every entry stays the last outcome for its name |
| `ResolverCache.Resolver.EvictLocked` | api/resolver.go:115-138 | removes exactly max(1, maxEntries/10) entries, an unexpired one only when no expired one is left |
| `ResolverCache.RemoveExpired` | api/resolver.go:121-129 | the first loop removes expired entries only, and stops short of its target only when none is left |
| `ResolverCache.RemoveAny` | api/resolver.go:131-137 | the second loop removes as many as are still wanted |
| `ResolverCache.Resolver.ClearCache` | api/resolver.go:141-145 | empties the cache |
| `ResolverCache.SizeAfterRecord` | api/resolver.go:88-103 | a success leaves the size at most max(maxEntries, size before), a failure adds at most one |
| `ResolverCache.ServedIsLastRecorded` | api/resolver.go:69-78 | agreement of the cache implies what a hit returns |
| `ResolverFlights.OneQueryPerName` | api/resolver.go:80-105 | in every run at most one inner query per name is in flight |
| `ResolverFlights.AnswersWereRecorded` | api/resolver.go:68-111 | every answer, cached, led or shared, is one the inner resolver gave for that very name |
| `ResolverFlights.NobodyWaitsInVain` | api/resolver.go:80-111 | in any run an unfinished call, or the leader it waits for, comes nearer its answer by its next step; a caller whose leader has its answer returns that one |
| `ResolverFlights.CacheHitIsCurrent` | api/resolver.go:69-78 | a cache hit in any run is the last outcome recorded for the name at that moment, and young enough |
| `ResolverFlights.HitIff` | api/resolver.go:69-78 | in any run a call is answered from the cache if and only if the name has an entry and its last outcome is young enough |
| `ResolverFlights.RemembersBelowLimit` | api/resolver.go:88-103 | a resolver that has recorded fewer names than its limit, and was not cleared, holds the last outcome of every one of them |
| `ResolverFlights.SizeIsBoundedUpToFailures` | api/resolver.go:88-103 | over a whole run the size is at most maxEntries plus the recorded failures |
| `DialDeadlines.AttemptWithinCaller` | internal/netstack/tun.go:1006-1024 | an attempt's deadline lies after now and not after the caller's; the last address gets all the time; nobody gets less than its fair share, nor less than 2 s while 2 s are left |
| `DialDeadlines.DialContext` | internal/netstack/tun.go:1074-1124 | which attempts are made and with which deadlines; the first success wins, otherwise the first attempt's error, a dead context's error, a timeout or a missing address; when all attempts fail without overrun and the context lives as long as the caller's deadline lets it, all are made if more than 2 s are there for each but the last, and only then if they use up all their time |
| `DialDeadlines.SharesNeverShrink` | internal/netstack/tun.go:1006-1024 | if the first fair share is at least 2 s and no attempt overruns, every address is reached with at least that share |
| `DialDeadlines.TimeLeft` | internal/netstack/tun.go:1074-1100 | with more than 2 s for each address but the last and no overrun, every address is reached in time |
| `DialDeadlines.AllReachedIff` | internal/netstack/tun.go:1006-1024 | if every attempt hangs, that condition is exact |
| `DialDeadlines.LastAddressStarves` | internal/netstack/tun.go:1014-1022 | otherwise some hanging attempts do starve the last address |
| `DomainName.IsDomainName` | internal/netstack/tun.go:569-608 | the scanner accepts exactly the grammar: length limits, allowed bytes, labels of 1 to 63 bytes with no hyphen at either end, optional trailing dot, some non-numeric byte |
| `DomainName.TrailingDotIgnored` | internal/netstack/tun.go:569-573 | a trailing dot changes nothing |
| `DomainName.DotJoinsNames` | internal/netstack/tun.go:576-607 | names joined by a dot are a name, if short enough |
| `Backoff.NextDelay` | api/tunnel.go:200-222 | an attempt below 1 waits the initial delay; otherwise the loop runs min(attempt, K) times and the jitter stays within a tenth of the capped delay |
| `Backoff.DelayBeforeJitter` | api/tunnel.go:205-215 | K exists, and initial * factor^min(attempt, K) lies between the initial and the maximal delay, for every attempt |
| `Backoff.DelayMonotone` | api/tunnel.go:205-215 | the delay before the jitter never falls from one attempt to a later one |
| `Backoff.DelaySettles` | api/tunnel.go:206-210 | from K on one more multiplication would reach the cap |
| `Backoff.EachTurnMultiplies` | api/tunnel.go:206-210 | below K one more attempt multiplies the delay by the factor |
| `TimeoutConn.Conn.Read` | models/net.go:43-65 | a read re-arms only when a quarter of the bound has passed |
| `TimeoutConn.Conn.Write` | models/net.go:67-86 | the same for writes, leaving the read side alone |
| `TimeoutConn.Conn.SetIdleTimeout` | models/net.go:34-41 | changes the bound and forgets both marks |
| `TimeoutConn.ShortenRelayIdle` | cmd/socks_adapter.go:227-232 | changes the bound and bounds a read already blocked |
| `TimeoutConn.ReadDeadlineWindow` | models/net.go:43-65 | after any operations a read blocks under a deadline between now + idle - idle/4 and now + idle, for the bound then in effect |
| `TimeoutConn.WriteDeadlineWindow` | models/net.go:67-86 | the same for a write |
| `TimeoutConn.SetIdleBindsNextCall` | models/net.go:21-41 | after any operations, a bound d set between two calls puts the next one under the deadline now + d |
| `TimeoutConn.ArmsLazily` | models/net.go:43-86 | a call changes its deadline only when more than a quarter of the bound has passed since the last change |
| `TimeoutConn.ActiveStreamNeverCut` | models/net.go:43-86 | over any operations: what comes within three quarters of the bound in effect never meets an expired deadline |
| `TimeoutConn.SilentStreamAlwaysCut` | models/net.go:43-86 | a read or write still waiting a whole bound later has met its deadline |
| `IdleRace.ShorterBoundWinsIff` | models/net.go:34-65 | once shortened, a blocked read is under the shorter bound unless and only unless its bound was loaded before and its generation after the change |
| `IdleRace.WriteBoundIff` | models/net.go:34-86 | for a write, unless and only unless that happened, or the write passed its check before the generation was bumped |
| `IdleRace.NextCallIsBound` | models/net.go:34-86 | every read or write that begins after the mark was reset is under the shorter bound unless and only unless it was overtaken |
| `IdleRace.ShorterBoundCanLose` | models/net.go:44-60 | that order occurs |
| `IdleRace.BlockedWriteKeepsBound` | models/net.go:67-86 | so does the other one |
| `IdleRace.CallAlone` | models/net.go:43-86 | a call that no change interrupts arms its side as the whole call does |
| `IdleRace.ChangeAlone` | models/net.go:34-41 | a change that no call interrupts leaves bound, mark and deadline as the whole change does |
| `BypassDomain.Matcher.constructor` | cmd/bypass_domain.go:17-31 | the set holds exactly the non-empty normalised domains |
| `BypassDomain.Matcher.Match` | cmd/bypass_domain.go:37-66 | the result on every string, and that the loop ends |
| `BypassDomain.MatchMeansLabelSuffix` | cmd/bypass_domain.go:51-65 | with non-empty labels: true if and only if some label-boundary suffix is in the set |
| `BypassDomain.SubdomainsMatch` | cmd/bypass_domain.go:51-65 | a subdomain of a matching host matches if and only if it is not an address itself |
| `BypassDomain.EmptyLabelHidesSuffix` | cmd/bypass_domain.go:56-59 | behind an empty label nothing is found |
| `DeviceName.NormalizeDeviceName` | cmd/proxy.go:518-552 | the loop computes the normal form |
| `DeviceName.NormalizedIsNormal` | cmd/proxy.go:518-552 | 1 to 16 characters of [a-z0-9-], no dash at either end, none doubled |
| `DeviceName.NormalIsFixed` | cmd/proxy.go:518-552 | a name in that form is unchanged |
| `DeviceName.NormalizeIdempotent` | cmd/proxy.go:518-552 | normalising twice is normalising once |
| `DeviceName.NormalizeKeepsAlnums` | cmd/proxy.go:523-539 | the letters and digits all stay, in order; a name of at most 16 characters is not cut, a longer one keeps a prefix of at least 15 |
| `DeviceName.UncutIsWordsJoined` | cmd/proxy.go:519-544 | before the cut the name is the words of the input joined by single dashes, or node |
| `DeviceName.AccountIDSuffix` | cmd/proxy.go:554-569 | the last four letters or digits of the id, all of them if there are fewer, or 0000 |
| `DeviceName.BuildAutoDeviceName` | cmd/proxy.go:571-592 | exactly prefix-host-suffix, already normal, at most 16 characters, the suffix whole, the host cut if and only if it does not fit |

## Left out

- The Cloudflare API, TLS, QUIC, HTTP/2 and HTTP/3, gVisor and wireguard-go: every call into them is an outcome the model leaves open.
- Logging, the in-flight gauge, `establishedNanos`, `TunnelReconnectLog`, and the state file that `SetTunnelUp` publishes.
- Machine-integer wrap-around of counters, byte counts and nanosecond times: they are unbounded here.
- A CONNECT request that cannot be built (api/l4proxy.go:426-430) ends its dial without effect, like a cancelled one, and is not told apart from it.
- `closeOnce` of a forwarding session is one step: closing the connection and cancelling its context are not told apart.
- `runICMPInjector` and its queue, and `runIPToDevice`, which writes each packet it reads: only their error reports appear, as reports by some goroutine.
- DevicePump.RunDeviceToIP: the error reports it makes are in `ForwardSessions.dfy`; the hand-off of ICMP packets and the exit by ctx are left out. A session is sampled once a batch, and later changes show only as failing writes.
- A write to an upstream that is already in an association's map, and the name lookup before its dial, are not steps of `UdpSlots.dfy`: they change no shared state. Such a write comes after the lock is given up, so the upstream may have been closed by then.
- `io.CopyBuffer` is modelled as its read and write loop; the shortcuts of connections that copy themselves are not.
- The shortened idle bound of a half-open relay is in `TimeoutConn.dfy` and `IdleRace.dfy`; `TcpRelay.dfy` lets any read fail at any time instead.
- TimeoutConn.Conn.Read: taken as one step, so its generation check never fires there; the check is modelled in `IdleRace.dfy`, for one change of the bound.
- TimeoutConn.Conn.Write: the same.
- Backoff.NextDelay: real arithmetic, so rounding is not modelled; with the factor 2 in use every delay before the jitter is whole.
- `normalizeBypassDomain` and the address parser are parameters of the matcher.
- DeviceName.NormalizeDeviceName: ASCII input only, because the source cuts a longer name between bytes.
- DeviceName.AccountIDSuffix: ASCII input only, for the same reason.
- DeviceName.BuildAutoDeviceName: ASCII input only, for the same reason.
- A bound on the cache size independent of failures, the agreement of the state file with the flag, and that a reset closes a flow tracked after it: the code does not promise them.
- DNS message exchange, configuration, the start-up decision table, UDP mode and shard labels: they would only add members readable from one branch.
