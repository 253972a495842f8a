/**
  The one-pass domain-name check of internal/netstack/tun.go against the grammar it
  stands for: a relaxed form of sections 2.3.1 and 2.3.4 of RFC 1035. Strings are bytes.
 */
module DomainName {
  const MAX_NAME := 253
  const MAX_LABEL := 63

  predicate IsNonNumeric(c: char) {
    'a' <= c <= 'z' || 'A' <= c <= 'Z' || c == '_' || c == '-'
  }

  predicate IsAllowed(c: char) {
    IsNonNumeric(c) || '0' <= c <= '9' || c == '.'
  }

  // The name without its optional trailing dot.
  function Body(s: string): string {
    if s != "" && s[|s| - 1] == '.' then s[..|s| - 1] else s
  }

  // b[i..j] is one of the dot-separated labels of b.
  predicate IsLabel(b: string, i: nat, j: nat) {
    && i <= j <= |b|
    && (i == 0 || b[i - 1] == '.') && (j == |b| || b[j] == '.')
    && forall k | i <= k < j :: b[k] != '.'
  }

  predicate LabelOk(b: string, i: nat, j: nat)
    requires i <= j <= |b|
  {
    1 <= j - i <= MAX_LABEL && b[i] != '-' && b[j - 1] != '-'
  }

  /** The grammar. */
  ghost predicate InGrammar(s: string) {
    var b := Body(s);
    && 1 <= |b| <= MAX_NAME
    && (forall k | 0 <= k < |b| :: IsAllowed(b[k]))
    && (forall i: nat, j: nat | IsLabel(b, i, j) :: LabelOk(b, i, j))
    && exists k :: 0 <= k < |b| && IsNonNumeric(b[k])
  }

  // The label that starts at i and has no dot before n ends somewhere.
  lemma {:induction false} LabelEnd(b: string, i: nat, n: nat) returns (j: nat)
    requires i <= n <= |b| && (i == 0 || b[i - 1] == '.')
    requires forall k | i <= k < n :: b[k] != '.'
    ensures n <= j && IsLabel(b, i, j)
    decreases |b| - n
  {
    if n == |b| || b[n] == '.' {
      j := n;
    } else {
      j := LabelEnd(b, i, n + 1);
    }
  }

  // What the scanner knows after i bytes, the last `partlen` of them in the open label.
  ghost predicate Scanned(s: string, i: nat, last: char, partlen: nat, nonNumeric: bool)
    requires i <= |s|
  {
    && last == (if i == 0 then '.' else s[i - 1])
    && partlen <= i && (partlen == i || s[i - partlen - 1] == '.')
    && (forall k | i - partlen <= k < i :: s[k] != '.')
    && (partlen > 0 ==> s[i - partlen] != '-')
    && (forall k | 0 <= k < i :: IsAllowed(s[k]))
    && (forall a: nat, j: nat | IsLabel(s, a, j) && j < i :: LabelOk(s, a, j))
    && (nonNumeric <==> exists k :: 0 <= k < i && IsNonNumeric(s[k]))
  }

  lemma BodyLabels(s: string, i: nat, j: nat)
    requires j < |s| && (IsLabel(s, i, j) || IsLabel(Body(s), i, j))
    ensures IsLabel(s, i, j) && IsLabel(Body(s), i, j)
  {
  }

  // A label the scanner has just found to be wrong.
  lemma BadLabel(s: string, i: nat, j: nat)
    requires j <= |s| && IsLabel(s, i, j) && !LabelOk(s, i, j) && (j < |s| || Body(s) == s)
    ensures !InGrammar(s)
  {
    if j < |s| {
      BodyLabels(s, i, j);
    }
    assert IsLabel(Body(s), i, j) && !LabelOk(Body(s), i, j);
  }

  lemma HyphenStartsLabel(s: string, i: nat)
    requires i < |s| && s[i] == '-' && (i == 0 || s[i - 1] == '.')
    ensures !InGrammar(s)
  {
    var b := Body(s);
    assert b[i] == '-';
    var j := LabelEnd(b, i, i);
    assert !LabelOk(b, i, j);
  }

  lemma DotClosesLabel(s: string, i: nat, last: char, partlen: nat, nonNumeric: bool)
    requires i < |s| && s[i] == '.' && Scanned(s, i, last, partlen, nonNumeric)
    ensures IsLabel(s, i - partlen, i)
    ensures LabelOk(s, i - partlen, i) <==> last != '.' && last != '-' && 0 < partlen <= MAX_LABEL
  {
  }

  lemma DotKeepsScanned(s: string, i: nat, last: char, partlen: nat, nonNumeric: bool)
    requires i < |s| && s[i] == '.' && Scanned(s, i, last, partlen, nonNumeric) && LabelOk(s, i - partlen, i)
    ensures Scanned(s, i + 1, '.', 0, nonNumeric)
  {
    forall a: nat, j: nat | IsLabel(s, a, j) && j < i + 1
      ensures LabelOk(s, a, j)
    {
      if j == i {
        assert a == i - partlen;
      }
    }
  }

  lemma ByteKeepsScanned(s: string, i: nat, last: char, partlen: nat, nonNumeric: bool)
    requires i < |s| && s[i] != '.' && IsAllowed(s[i]) && Scanned(s, i, last, partlen, nonNumeric)
    requires s[i] == '-' ==> last != '.'
    ensures Scanned(s, i + 1, s[i], partlen + 1, nonNumeric || IsNonNumeric(s[i]))
  {
    forall a: nat, j: nat | IsLabel(s, a, j) && j < i + 1
      ensures LabelOk(s, a, j)
    {
      assert j != i;
    }
  }

  lemma ScannedAll(s: string, last: char, partlen: nat, nonNumeric: bool)
    requires 0 < |s| <= MAX_NAME + 1 && (|s| == MAX_NAME + 1 ==> s[|s| - 1] == '.')
    requires Scanned(s, |s|, last, partlen, nonNumeric)
    ensures InGrammar(s) <==> last != '-' && partlen <= MAX_LABEL && nonNumeric
  {
    var b, n := Body(s), |s|;
    if partlen == 0 {
      assert b == s[..n - 1];
    } else {
      assert b == s && IsLabel(s, n - partlen, n);
      if last == '-' || partlen > MAX_LABEL {
        BadLabel(s, n - partlen, n);
      }
    }
    if last != '-' && partlen <= MAX_LABEL {
      forall i: nat, j: nat | IsLabel(b, i, j)
        ensures LabelOk(b, i, j)
      {
        if j < n {
          BodyLabels(s, i, j);
        } else {
          assert i == n - partlen;
        }
      }
    }
    assert nonNumeric ==> exists k :: 0 <= k < |b| && IsNonNumeric(b[k]);
  }

  /** The scanner accepts exactly the grammar. */
  method IsDomainName(s: string) returns (r: bool)
    ensures r <==> InGrammar(s)
  {
    var l := |s|;
    if l == 0 || l > 254 || (l == 254 && s[l - 1] != '.') {
      return false;
    }
    var last, nonNumeric, partlen: nat := '.', false, 0;
    for i := 0 to l
      invariant Scanned(s, i, last, partlen, nonNumeric)
    {
      var c := s[i];
      if 'a' <= c <= 'z' || 'A' <= c <= 'Z' || c == '_' {
        ByteKeepsScanned(s, i, last, partlen, nonNumeric);
        nonNumeric, partlen := true, partlen + 1;
      } else if '0' <= c <= '9' {
        ByteKeepsScanned(s, i, last, partlen, nonNumeric);
        partlen := partlen + 1;
      } else if c == '-' {
        if last == '.' {
          HyphenStartsLabel(s, i);
          return false;
        }
        ByteKeepsScanned(s, i, last, partlen, nonNumeric);
        partlen, nonNumeric := partlen + 1, true;
      } else if c == '.' {
        DotClosesLabel(s, i, last, partlen, nonNumeric);
        if last == '.' || last == '-' || partlen > MAX_LABEL || partlen == 0 {
          BadLabel(s, i - partlen, i);
          return false;
        }
        DotKeepsScanned(s, i, last, partlen, nonNumeric);
        partlen := 0;
      } else {
        assert Body(s)[i] == c;
        return false;
      }
      last := c;
    }
    ScannedAll(s, last, partlen, nonNumeric);
    return last != '-' && partlen <= MAX_LABEL && nonNumeric;
  }

  /** A trailing dot never matters to a name that has none. */
  lemma TrailingDotIgnored(s: string)
    requires Body(s) == s
    ensures InGrammar(s + ".") <==> InGrammar(s)
  {
    assert Body(s + ".") == s;
  }

  lemma LabelOfJoin(a: string, c: string, i: nat, j: nat)
    requires IsLabel(a + "." + c, i, j)
    requires j <= |a| ==> LabelOk(a, i, j) || !IsLabel(a, i, j)
    requires i > |a| ==> LabelOk(c, i - |a| - 1, j - |a| - 1) || !IsLabel(c, i - |a| - 1, j - |a| - 1)
    ensures LabelOk(a + "." + c, i, j)
  {
    var n, s := |a|, a + "." + c;
    assert s[n] == '.';
    assert forall k | 0 <= k < n :: a[k] == s[k];
    assert forall k | 0 <= k < |c| :: c[k] == s[k + n + 1];
    if j <= n {
      assert IsLabel(a, i, j);
    } else {
      assert i > n;
      assert IsLabel(c, i - n - 1, j - n - 1);
    }
  }

  /** Two names joined by a dot are a name, as long as the whole is short enough. */
  lemma DotJoinsNames(a: string, b: string)
    requires InGrammar(a) && InGrammar(b) && Body(a) == a
    requires |a| + 1 + |Body(b)| <= MAX_NAME
    ensures InGrammar(a + "." + b)
  {
    var n, c := |a|, Body(b);
    var s := a + "." + c;
    assert Body(a + "." + b) == s;
    forall i: nat, j: nat | IsLabel(s, i, j)
      ensures LabelOk(s, i, j)
    {
      LabelOfJoin(a, c, i, j);
    }
    var k :| 0 <= k < n && IsNonNumeric(a[k]);
    assert IsNonNumeric(s[k]);
    forall k | 0 <= k < |s|
      ensures IsAllowed(s[k])
    {
      assert k > n ==> s[k] == c[k - n - 1];
    }
  }
}
