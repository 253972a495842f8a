/**
  The cache of api/resolver.go: what CachingResolver does under its lock. Times are
  nanoseconds; the inner resolver's answers are parameters.
 */
module ResolverCache {
  import opened Options

  const MINUTE := 60_000_000_000
  const DEFAULT_TTL := 10 * MINUTE
  const DEFAULT_NEGATIVE_TTL := 5_000_000_000
  const DEFAULT_MAX_ENTRIES := 4096

  type Name = string
  datatype Answer = Ip(ip: nat) | Failed(err: nat)
  datatype Entry = Entry(answer: Answer, expiresAt: int)
  type Cache = map<Name, Entry>

  // One outcome of the inner resolver, as it was recorded.
  datatype Outcome = Outcome(name: Name, answer: Answer, at: int)

  datatype Limits = Limits(ttl: int, negativeTTL: int, maxEntries: int)

  predicate LimitsOk(lim: Limits) {
    lim.ttl > 0 && lim.negativeTTL > 0 && lim.maxEntries > 0
  }

  function Lifetime(lim: Limits, answer: Answer): int {
    if answer.Failed? then lim.negativeTTL else lim.ttl
  }

  predicate Usable(e: Entry, now: int) {
    now < e.expiresAt
  }

  predicate Expired(e: Entry, now: int) {
    now > e.expiresAt
  }

  function EvictTarget(lim: Limits): int {
    if lim.maxEntries / 10 < 1 then 1 else lim.maxEntries / 10
  }

  // Which sets of names an eviction may remove: the target number of them, and an
  // unexpired one only together with every expired one.
  predicate EvictionOk(cache: Cache, victims: set<Name>, now: int, lim: Limits) {
    && victims <= cache.Keys
    && |victims| == (if EvictTarget(lim) <= |cache| then EvictTarget(lim) else |cache|)
    && ((exists k | k in victims :: !Expired(cache[k], now)) ==>
          forall k | k in cache && Expired(cache[k], now) :: k in victims)
  }

  // Which names make room for a new answer: a failure never evicts.
  predicate VictimsOk(cache: Cache, answer: Answer, victims: set<Name>, now: int, lim: Limits) {
    if answer.Failed? || |cache| < lim.maxEntries then victims == {} else EvictionOk(cache, victims, now, lim)
  }

  function Recorded(cache: Cache, o: Outcome, victims: set<Name>, lim: Limits): Cache {
    (cache - victims)[o.name := Entry(o.answer, o.at + Lifetime(lim, o.answer))]
  }

  function LastFor(log: seq<Outcome>, name: Name): Option<Outcome> {
    if log == [] then None
    else if log[|log| - 1].name == name then Some(log[|log| - 1])
    else LastFor(log[..|log| - 1], name)
  }

  predicate EntryAgrees(e: Entry, last: Option<Outcome>, lim: Limits) {
    last.Some? && e.answer == last.value.answer && e.expiresAt == last.value.at + Lifetime(lim, e.answer)
  }

  /** Every entry is the last recorded outcome for its own name. */
  predicate Agrees(cache: Cache, log: seq<Outcome>, lim: Limits) {
    forall k | k in cache :: EntryAgrees(cache[k], LastFor(log, k), lim)
  }

  lemma RecordedAlone(cache: Cache, o: Outcome, lim: Limits)
    ensures Recorded(cache, o, {}, lim) == cache[o.name := Entry(o.answer, o.at + Lifetime(lim, o.answer))]
  {
    assert cache - {} == cache;
  }

  lemma RecordKeepsAgreement(cache: Cache, log: seq<Outcome>, o: Outcome, victims: set<Name>, lim: Limits)
    requires Agrees(cache, log, lim)
    ensures Agrees(Recorded(cache, o, victims, lim), log + [o], lim)
  {
    assert (log + [o])[..|log|] == log;
  }

  /** A successful answer never grows the cache past its limit, or past its size before;
      a failure adds at most one entry whatever the size. */
  lemma SizeAfterRecord(cache: Cache, o: Outcome, victims: set<Name>, now: int, lim: Limits)
    requires LimitsOk(lim) && VictimsOk(cache, o.answer, victims, now, lim)
    ensures var n := |Recorded(cache, o, victims, lim)|;
            if o.answer.Failed? then n <= |cache| + 1 else n <= lim.maxEntries || n <= |cache|
  {
    var kept := cache - victims;
    assert kept.Keys == cache.Keys - victims;
    assert |kept.Keys| == |cache.Keys| - |victims|;
    assert Recorded(cache, o, victims, lim).Keys == kept.Keys + {o.name};
  }

  /** A cached answer that is served is the last recorded outcome for that very name, and
      younger than the lifetime of its kind. */
  lemma ServedIsLastRecorded(cache: Cache, log: seq<Outcome>, name: Name, now: int, lim: Limits)
    requires Agrees(cache, log, lim) && name in cache && Usable(cache[name], now)
    ensures var last := LastFor(log, name);
            last.Some? && last.value.name == name && last.value.answer == cache[name].answer
            && now - last.value.at < Lifetime(lim, last.value.answer)
  {
    assert EntryAgrees(cache[name], LastFor(log, name), lim);
    LastForIsNamed(log, name);
  }

  lemma {:induction false} LastForIsNamed(log: seq<Outcome>, name: Name)
    ensures LastFor(log, name).Some? ==> LastFor(log, name).value in log && LastFor(log, name).value.name == name
    ensures LastFor(log, name).None? ==> forall o | o in log :: o.name != name
  {
    if log != [] {
      LastForIsNamed(log[..|log| - 1], name);
      assert log == log[..|log| - 1] + [log[|log| - 1]];
    }
  }

  /** The first loop of evictLocked: at most `target` entries, all of them expired; fewer
      only when no expired entry is left. */
  method RemoveExpired(cache: Cache, target: int, now: int)
      returns (kept: Cache, ghost victims: set<Name>, left: int)
    requires target >= 1
    ensures victims <= cache.Keys && kept == cache - victims && |victims| == target - left && left >= 0
    ensures forall k | k in victims :: Expired(cache[k], now)
    ensures left > 0 ==> forall k | k in kept :: !Expired(kept[k], now)
  {
    kept, victims, left := cache, {}, target;
    var todo := cache.Keys;
    while todo != {}
      invariant todo <= kept.Keys && victims <= cache.Keys && kept == cache - victims
      invariant left >= 1 && |victims| == target - left
      invariant forall k | k in victims :: Expired(cache[k], now)
      invariant forall k | k in kept && k !in todo :: !Expired(kept[k], now)
      decreases |todo|
    {
      var k: Name :| k in todo;
      todo := todo - {k};
      if now > kept[k].expiresAt {
        kept, victims, left := kept - {k}, victims + {k}, left - 1;
        if left <= 0 {
          return;
        }
      }
    }
  }

  /** The second loop of evictLocked: `left` arbitrary entries, or all there are. */
  method RemoveAny(cache: Cache, left: int) returns (kept: Cache, ghost victims: set<Name>)
    requires left >= 1
    ensures victims <= cache.Keys && kept == cache - victims
    ensures |victims| == if left <= |cache| then left else |cache|
    ensures |kept| == if left <= |cache| then |cache| - left else 0
  {
    kept, victims := cache, {};
    var more := left;
    while kept != map[]
      invariant victims <= cache.Keys && kept == cache - victims
      invariant more >= 1 && |victims| == left - more
      decreases |kept|
    {
      var k: Name :| k in kept;
      RemovedCount(kept, {k});
      kept, victims, more := kept - {k}, victims + {k}, more - 1;
      if more <= 0 {
        RemovedCount(cache, victims);
        return;
      }
    }
    RemovedCount(cache, victims);
  }

  lemma RemovedCount(before: Cache, victims: set<Name>)
    requires victims <= before.Keys
    ensures (before - victims).Keys == before.Keys - victims && |before - victims| == |before| - |victims|
  {
    assert (before - victims).Keys == before.Keys - victims;
    assert |before.Keys - victims| == |before.Keys| - |victims|;
    assert |(before - victims).Keys| == |before - victims|;
  }

  lemma BothLoopsEvict(cache: Cache, expired: set<Name>, more: set<Name>, left: int, now: int, lim: Limits)
    requires expired <= cache.Keys && more <= (cache - expired).Keys
    requires 1 <= left && |expired| == EvictTarget(lim) - left
    requires |more| == if left <= |cache - expired| then left else |cache - expired|
    requires forall k | k in cache - expired :: !Expired((cache - expired)[k], now)
    ensures cache - expired - more == cache - (expired + more)
    ensures EvictionOk(cache, expired + more, now, lim)
  {
    RemovedCount(cache, expired);
    assert expired !! more;
    assert |expired + more| == |expired| + |more|;
    forall k | k in cache && Expired(cache[k], now)
      ensures k in expired
    {
      assert k !in expired ==> k in cache - expired;
    }
  }

  class Resolver {
    const lim: Limits
    var cache: Cache
    ghost var log: seq<Outcome>

    ghost predicate Valid()
      reads this
    {
      LimitsOk(lim) && Agrees(cache, log, lim)
    }

    constructor (ttl: int, negativeTTL: int, maxEntries: int)
      ensures Valid() && cache == map[] && log == []
      ensures lim.ttl == if ttl <= 0 then DEFAULT_TTL else ttl
      ensures lim.negativeTTL == if negativeTTL <= 0 then DEFAULT_NEGATIVE_TTL else negativeTTL
      ensures lim.maxEntries == if maxEntries <= 0 then DEFAULT_MAX_ENTRIES else maxEntries
    {
      lim := Limits(if ttl <= 0 then DEFAULT_TTL else ttl,
                    if negativeTTL <= 0 then DEFAULT_NEGATIVE_TTL else negativeTTL,
                    if maxEntries <= 0 then DEFAULT_MAX_ENTRIES else maxEntries);
      cache, log := map[], [];
    }

    /** The fast path of Resolve. */
    method Lookup(name: Name, now: int) returns (hit: Option<Answer>)
      requires Valid()
      ensures hit.Some? <==> name in cache && now < cache[name].expiresAt
      ensures hit.Some? ==> hit.value == cache[name].answer
      ensures hit.Some? ==>
                var last := LastFor(log, name);
                last.Some? && last.value.name == name && last.value.answer == hit.value
                && now - last.value.at < Lifetime(lim, hit.value)
    {
      if name in cache && now < cache[name].expiresAt {
        ServedIsLastRecorded(cache, log, name, now, lim);
        return Some(cache[name].answer);
      }
      return None;
    }

    /** The locked section of Resolve: the outcome is there afterwards, with the lifetime of
        its kind, and nothing else is new. Only a success that meets a full cache takes other
        entries out. `now` is evictLocked's own clock reading. */
    method Record(o: Outcome, now: int) returns (ghost victims: set<Name>)
      requires Valid()
      modifies this
      ensures Valid() && log == old(log) + [o]
      ensures o.name in cache && cache[o.name].answer == o.answer
      ensures cache[o.name].expiresAt == o.at + if o.answer.Failed? then lim.negativeTTL else lim.ttl
      ensures forall k | k in cache && k != o.name :: k in old(cache) && cache[k] == old(cache)[k]
      ensures o.answer.Failed? || |old(cache)| < lim.maxEntries ==> old(cache).Keys <= cache.Keys
      ensures VictimsOk(old(cache), o.answer, victims, now, lim)
      ensures cache == Recorded(old(cache), o, victims, lim)
    {
      victims := {};
      RecordedAlone(cache, o, lim);
      RecordKeepsAgreement(cache, log, o, {}, lim);
      if o.answer.Ip? && |cache| >= lim.maxEntries {
        ghost var before := cache;
        victims := EvictLocked(now);
        RecordKeepsAgreement(before, log, o, victims, lim);
      }
      cache := cache[o.name := Entry(o.answer, o.at + if o.answer.Failed? then lim.negativeTTL else lim.ttl)];
      log := log + [o];
    }

    /** Removes the target number of entries, expired ones first. */
    method EvictLocked(now: int) returns (ghost victims: set<Name>)
      requires LimitsOk(lim)
      modifies this`cache
      ensures cache == old(cache) - victims && EvictionOk(old(cache), victims, now, lim)
      ensures |cache| == if EvictTarget(lim) <= |old(cache)| then |old(cache)| - EvictTarget(lim) else 0
      ensures EvictTarget(lim) >= 1 && lim.maxEntries - 10 < 10 * EvictTarget(lim) <= lim.maxEntries + 10
      ensures (exists k | k in victims :: now <= old(cache)[k].expiresAt) ==>
                forall k | k in cache :: now <= cache[k].expiresAt
    {
      ghost var before := cache;
      var target := lim.maxEntries / 10;
      if target < 1 {
        target := 1;
      }
      var left;
      cache, victims, left := RemoveExpired(cache, target, now);
      RemovedCount(before, victims);
      if left > 0 {
        ghost var more;
        cache, more := RemoveAny(cache, left);
        BothLoopsEvict(before, victims, more, left, now, lim);
        victims := victims + more;
      }
      RemovedCount(before, victims);
    }

    method ClearCache()
      requires Valid()
      modifies this`cache
      ensures Valid() && cache == map[]
    {
      cache := map[];
    }
  }
}
