/**
  The pump over the sessions (api/forwarding_supervisor.go): what the device pump samples
  are the active sessions of one run of attaches, detaches, reports and closes.
 */
module PumpSessions {
  import opened Options
  import F = ForwardSessions
  import opened DevicePump

  // Turn k samples the active session after the first at[k] events of the run.
  predicate SampledAlong(es: seq<F.Event>, at: seq<nat>, turns: seq<Turn>) {
    && |at| == |turns|
    && (forall k | 0 <= k < |at| :: at[k] <= |es|)
    && (forall a, b | 0 <= a < b < |at| :: at[a] <= at[b])
    && forall k | 0 <= k < |at| :: turns[k].sample.session == F.RunAll(F.Init(), es[..at[k]]).w.active
  }

  lemma SampledOlder(es: seq<F.Event>, m: nat, n: nat)
    requires m <= n <= |es| && !F.RunAll(F.Init(), es).w.overlapped
    ensures var s, s' := F.RunAll(F.Init(), es[..m]).w.active, F.RunAll(F.Init(), es[..n]).w.active;
            s.Some? && s'.Some? ==> s.value <= s'.value
  {
    assert es[..m] + es[m..n] == es[..n] && es[..n] + es[n..] == es;
    F.OrderOnlyGrows(es[..n], es[n..]);
    if F.RunAll(F.Init(), es[..m]).w.active.Some? && F.RunAll(F.Init(), es[..n]).w.active.Some? {
      F.SampledNeverGoesBack(es[..m], es[m..n]);
    }
  }

  /** In a run in which no two attaches overlap, whenever the pump samples, the session ids
      of what it delivers never go back. */
  lemma DeliveredSessionsAscend(es: seq<F.Event>, at: seq<nat>, stream: seq<View>, turns: seq<Turn>, capacity: nat,
                                j: nat, j': nat)
    requires !F.RunAll(F.Init(), es).w.overlapped && SampledAlong(es, at, turns)
    requires Start(turns, |turns|) <= |stream| && j < j' < |Deliver(stream, turns, |turns|, capacity)|
    ensures var ds := Deliver(stream, turns, |turns|, capacity); ds[j].session <= ds[j'].session
  {
    forall a, b | 0 <= a < b < |turns|
      ensures NoOlder(turns, a, b)
    {
      SampledOlder(es, at[a], at[b]);
    }
    SessionsKeepOrder(stream, turns, capacity, j, j');
  }
}
