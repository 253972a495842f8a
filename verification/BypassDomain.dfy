/**
  The suffix matcher of cmd/bypass_domain.go. The normaliser and the address parser are
  parameters, so what is shown holds for any of them.
 */
module BypassDomain {
  // Where the loop looks: at the whole name, and behind each dot as long as every label
  // before it is non-empty and something follows it.
  predicate Visits(n: string, i: nat) {
    || i == 0
    || (i < |n| && n[i - 1] == '.' && forall q | 0 <= q < i && n[q] == '.' :: q > 0 && n[q - 1] != '.')
  }

  predicate SuffixIn(domains: set<string>, n: string, i: nat) {
    i <= |n| && n[i..] in domains
  }

  ghost predicate NameMatches(domains: set<string>, n: string) {
    exists i: nat :: Visits(n, i) && SuffixIn(domains, n, i)
  }

  /** What Match says of a normalised host: an address never matches. */
  ghost predicate HostMatches(domains: set<string>, isAddr: string -> bool, n: string) {
    n != "" && !isAddr(n) && NameMatches(domains, n)
  }

  method IndexDot(s: string) returns (dot: int)
    ensures -1 <= dot < |s| && forall k | 0 <= k < (if dot < 0 then |s| else dot) :: s[k] != '.'
    ensures dot >= 0 ==> s[dot] == '.'
  {
    for i := 0 to |s|
      invariant forall k | 0 <= k < i :: s[k] != '.'
    {
      if s[i] == '.' {
        return i;
      }
    }
    return -1;
  }

  class Matcher {
    const normalize: string -> string
    const isAddr: string -> bool
    var domains: set<string>

    constructor (raw: seq<string>, normalize: string -> string, isAddr: string -> bool)
      ensures this.normalize == normalize && this.isAddr == isAddr
      ensures forall d :: d in domains <==> d != "" && exists k :: 0 <= k < |raw| && d == normalize(raw[k])
    {
      this.normalize, this.isAddr := normalize, isAddr;
      var ds := {};
      for i := 0 to |raw|
        invariant forall d :: d in ds <==> d != "" && exists k :: 0 <= k < i && d == normalize(raw[k])
      {
        var normalized := normalize(raw[i]);
        if normalized != "" {
          ds := ds + {normalized};
        }
      }
      domains := ds;
    }

    /** True exactly for a name that is no address and one of whose visited suffixes, the
        whole name included, is in the set. It ends on every string. */
    method Match(host: string) returns (r: bool)
      ensures r <==> HostMatches(domains, isAddr, normalize(host))
    {
      var n := normalize(host);
      if domains == {} || n == "" || isAddr(n) {
        return false;
      }
      if n in domains {
        assert Visits(n, 0) && SuffixIn(domains, n, 0);
        return true;
      }
      var rest, at: nat := n, 0;
      while true
        invariant at <= |n| && rest == n[at..] && Visits(n, at)
        invariant forall j: nat | j <= at && Visits(n, j) :: !SuffixIn(domains, n, j)
        decreases |rest|
      {
        var dot := IndexDot(rest);
        if dot <= 0 || dot >= |rest| - 1 {
          assert dot >= 0 ==> n[at + dot] == '.';
          NothingFurther(n, at, dot);
          return false;
        }
        NextVisit(n, at, dot);
        at := at + dot + 1;
        rest := rest[dot + 1..];
        if rest in domains {
          assert SuffixIn(domains, n, at);
          return true;
        }
      }
    }
  }

  // The first dot behind `at` is missing, first, or last: the loop would visit nothing more.
  lemma NothingFurther(n: string, at: nat, dot: int)
    requires at <= |n| && Visits(n, at) && -1 <= dot < |n| - at && (dot >= 0 ==> n[at + dot] == '.')
    requires forall k | 0 <= k < (if dot < 0 then |n| - at else dot) :: n[at..][k] != '.'
    requires dot <= 0 || dot >= |n| - at - 1
    ensures forall j: nat | j > at :: !Visits(n, j)
  {
    assert forall k | at <= k < (if dot < 0 then |n| else at + dot) :: n[k] == n[at..][k - at];
  }

  lemma NextVisit(n: string, at: nat, dot: int)
    requires at <= |n| && Visits(n, at) && 0 < dot < |n| - at - 1 && n[at..][dot] == '.'
    requires forall k | 0 <= k < dot :: n[at..][k] != '.'
    ensures Visits(n, at + dot + 1)
    ensures forall j: nat | at < j <= at + dot :: !Visits(n, j)
  {
    assert n[at + dot] == '.';
    assert forall k | at <= k < at + dot :: n[at..][k - at] == n[k] != '.';
  }

  // No label of the name is empty.
  predicate LabelsNonEmpty(n: string) {
    && n != "" && n[0] != '.' && n[|n| - 1] != '.'
    && forall q | 0 < q < |n| && n[q] == '.' :: n[q - 1] != '.'
  }

  /** For names without empty labels the match means what it should: some suffix at a label
      boundary, the whole name included, is in the set. */
  lemma MatchMeansLabelSuffix(domains: set<string>, n: string)
    requires LabelsNonEmpty(n)
    ensures NameMatches(domains, n)
            <==> exists i: nat :: i < |n| && (i == 0 || n[i - 1] == '.') && SuffixIn(domains, n, i)
  {
    if i: nat :| i < |n| && (i == 0 || n[i - 1] == '.') && SuffixIn(domains, n, i) {
      assert Visits(n, i);
    }
  }

  lemma SubdomainNameMatches(domains: set<string>, sub: string, n: string)
    requires LabelsNonEmpty(sub) && n != "" && NameMatches(domains, n)
    ensures NameMatches(domains, sub + "." + n)
  {
    var i: nat :| Visits(n, i) && SuffixIn(domains, n, i);
    var s, k := sub + "." + n, |sub| + 1;
    assert s[i + k..] == n[i..];
    forall q | 0 <= q < i + k && s[q] == '.'
      ensures q > 0 && s[q - 1] != '.'
    {
      if q > |sub| {
        assert s[q] == n[q - k] && i > 0;
      } else if q < |sub| {
        assert s[q] == sub[q];
      }
    }
    assert s[i + k - 1] == if i == 0 then '.' else n[i - 1];
    assert Visits(s, i + k) && SuffixIn(domains, s, i + k);
  }

  /** A subdomain of a matching host matches if and only if it is not an address itself. */
  lemma SubdomainsMatch(domains: set<string>, isAddr: string -> bool, sub: string, n: string)
    requires LabelsNonEmpty(sub) && HostMatches(domains, isAddr, n)
    ensures HostMatches(domains, isAddr, sub + "." + n) <==> !isAddr(sub + "." + n)
  {
    SubdomainNameMatches(domains, sub, n);
  }

  /** With an empty label the loop stops early: a listed domain behind it is not found. */
  lemma EmptyLabelHidesSuffix(domains: set<string>, n: string, i: nat)
    requires 0 < i < |n| && n[i] == '.' && n[i - 1] == '.'
    ensures NameMatches(domains, n) <==> exists j: nat :: j <= i && Visits(n, j) && SuffixIn(domains, n, j)
  {
    if j: nat :| Visits(n, j) && SuffixIn(domains, n, j) {
      assert j <= i;
    }
  }
}
