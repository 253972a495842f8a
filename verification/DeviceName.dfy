/**
  Device names of cmd/proxy.go, for ASCII input: normalizeDeviceName, accountIDSuffix and
  buildAutoDeviceName.
 */
module DeviceName {
  const MAX_DEVICE_NAME_LEN := 16

  predicate IsAscii(s: string) {
    forall k | 0 <= k < |s| :: s[k] < 128 as char
  }

  predicate IsAlnum(c: char) {
    'a' <= c <= 'z' || '0' <= c <= '9'
  }

  predicate IsSpace(c: char) {
    c == ' ' || 9 as char <= c <= 13 as char
  }

  function LowerChar(c: char): char {
    if 'A' <= c <= 'Z' then c - 'A' + 'a' else c
  }

  function Lower(s: string): (r: string)
    ensures |r| == |s|
  {
    seq(|s|, i requires 0 <= i < |s| => LowerChar(s[i]))
  }

  function TrimSpace(s: string): string {
    if s != "" && IsSpace(s[0]) then TrimSpace(s[1..])
    else if s != "" && IsSpace(s[|s| - 1]) then TrimSpace(s[..|s| - 1])
    else s
  }

  function TrimDash(s: string): string {
    if s != "" && s[0] == '-' then TrimDash(s[1..])
    else if s != "" && s[|s| - 1] == '-' then TrimDash(s[..|s| - 1])
    else s
  }

  predicate EndsInDash(b: string) {
    b != "" && b[|b| - 1] == '-'
  }

  // The builder after n characters: every run of other characters becomes one dash.
  function Built(s: string, n: nat): string
    requires n <= |s|
  {
    if n == 0 then ""
    else
      var b := Built(s, n - 1);
      if IsAlnum(s[n - 1]) then b + [s[n - 1]]
      else if b != "" && !EndsInDash(b) then b + "-"
      else b
  }

  function OrElse(s: string, other: string): string {
    if s == "" then other else s
  }

  function Clipped(s: string, max: nat, other: string): string {
    if |s| > max then OrElse(TrimDash(s[..max]), other) else s
  }

  // The name before it is cut to length.
  function Uncut(raw: string): string {
    var s := TrimSpace(Lower(raw));
    OrElse(TrimDash(Built(s, |s|)), "node")
  }

  function Normalized(raw: string): string {
    Clipped(Uncut(raw), MAX_DEVICE_NAME_LEN, "node")
  }

  // The letters and digits of a string, in order.
  function Alnums(s: string): string {
    if s == "" then "" else Alnums(s[..|s| - 1]) + if IsAlnum(s[|s| - 1]) then [s[|s| - 1]] else ""
  }

  function Suffix4(s: string): string {
    if |s| > 4 then s[|s| - 4..] else s
  }

  // ---- What normalising means.

  // Only letters, digits and single dashes.
  predicate IsTidy(s: string) {
    && (forall k | 0 <= k < |s| :: IsAlnum(s[k]) || s[k] == '-')
    && (forall k | 0 < k < |s| && s[k] == '-' :: s[k - 1] != '-')
  }

  predicate NoOuterDash(s: string) {
    s != "" ==> s[0] != '-' && s[|s| - 1] != '-'
  }

  predicate IsNormal(s: string) {
    1 <= |s| <= MAX_DEVICE_NAME_LEN && IsTidy(s) && NoOuterDash(s)
  }

  lemma {:induction false} BuiltIsTidy(s: string, n: nat)
    requires n <= |s|
    ensures var b := Built(s, n); IsTidy(b) && (b != "" ==> b[0] != '-')
  {
    if n > 0 {
      BuiltIsTidy(s, n - 1);
    }
  }

  // A tidy string that starts with no dash loses at most its last dash.
  lemma TrimTidy(s: string)
    requires IsTidy(s) && (s != "" ==> s[0] != '-')
    ensures TrimDash(s) == if EndsInDash(s) then s[..|s| - 1] else s
    ensures IsTidy(TrimDash(s)) && NoOuterDash(TrimDash(s)) && (s != "" ==> TrimDash(s) != "")
  {
    if EndsInDash(s) {
      assert s[|s| - 2] != '-';
    }
  }

  lemma ClipKeepsNormal(s: string, max: nat, other: string)
    requires s != "" && IsTidy(s) && NoOuterDash(s) && max >= 1
    ensures var r := Clipped(s, max, other);
            && r != "" && |r| <= max && r <= s && IsTidy(r) && NoOuterDash(r)
            && (r != s ==> |r| >= max - 1)
  {
    if |s| > max {
      TrimTidy(s[..max]);
    }
  }

  /** A normalised name has 1 to 16 characters of [a-z0-9-], no dash at either end and no
      two dashes in a row. */
  lemma NormalizedIsNormal(raw: string)
    ensures IsNormal(Normalized(raw))
  {
    var s := TrimSpace(Lower(raw));
    BuiltIsTidy(s, |s|);
    TrimTidy(Built(s, |s|));
    ClipKeepsNormal(OrElse(TrimDash(Built(s, |s|)), "node"), MAX_DEVICE_NAME_LEN, "node");
  }

  lemma {:induction false} TidyIsBuilt(s: string, n: nat)
    requires n <= |s| && IsTidy(s) && NoOuterDash(s)
    ensures Built(s, n) == s[..n]
  {
    if n > 0 {
      TidyIsBuilt(s, n - 1);
      assert s[..n] == s[..n - 1] + [s[n - 1]];
    }
  }

  /** A name already in that form stays as it is, so normalising twice is normalising once. */
  lemma NormalIsFixed(s: string)
    requires IsNormal(s)
    ensures Normalized(s) == s
  {
    assert Lower(s) == s;
    TidyIsBuilt(s, |s|);
    assert s[..|s|] == s;
  }

  lemma NormalizeIdempotent(raw: string)
    ensures Normalized(Normalized(raw)) == Normalized(raw)
  {
    NormalizedIsNormal(raw);
    NormalIsFixed(Normalized(raw));
  }

  lemma JoinIsNormal(prefix: string, host: string, suffix: string)
    requires IsNormal(prefix) && IsNormal(host) && IsNormal(suffix)
    requires |prefix| + |host| + |suffix| + 2 <= MAX_DEVICE_NAME_LEN
    ensures IsNormal(prefix + "-" + host + "-" + suffix)
  {
    JoinTwo(prefix, host);
    JoinTwo(prefix + "-" + host, suffix);
  }

  lemma AutoNameIsNormal(prefix: string, host: string, suffix: string)
    requires (prefix == "p" || prefix == "t") && IsNormal(host) && 1 <= |suffix| <= 4
    requires |host| <= 13 - |suffix| && forall k | 0 <= k < |suffix| :: IsAlnum(suffix[k])
    ensures var s := prefix + "-" + host + "-" + suffix; IsNormal(s) && Normalized(s) == s
  {
    JoinIsNormal(prefix, host, suffix);
    NormalIsFixed(prefix + "-" + host + "-" + suffix);
  }

  lemma NormalIsAscii(s: string)
    requires IsTidy(s)
    ensures IsAscii(s)
  {
  }

  lemma JoinTwo(a: string, b: string)
    requires IsNormal(a) && IsNormal(b) && |a| + |b| + 1 <= MAX_DEVICE_NAME_LEN
    ensures IsNormal(a + "-" + b)
  {
    var s := a + "-" + b;
    forall k | 0 < k < |s| && s[k] == '-'
      ensures s[k - 1] != '-'
    {
      if k > |a| {
        assert s[k] == b[k - |a| - 1];
      }
    }
  }

  // ---- What normalising keeps.

  lemma {:induction false} AlnumsConcat(a: string, b: string)
    ensures Alnums(a + b) == Alnums(a) + Alnums(b)
  {
    if b == "" {
      assert a + b == a;
    } else {
      AlnumsConcat(a, b[..|b| - 1]);
      assert (a + b)[..|a + b| - 1] == a + b[..|b| - 1];
    }
  }

  lemma {:induction false} AlnumsAreAlnum(s: string)
    ensures forall k | 0 <= k < |Alnums(s)| :: IsAlnum(Alnums(s)[k])
  {
    if s != "" {
      AlnumsAreAlnum(s[..|s| - 1]);
    }
  }

  lemma {:induction false} TrimSpaceKeepsAlnums(s: string)
    ensures Alnums(TrimSpace(s)) == Alnums(s)
    decreases |s|
  {
    if s != "" && IsSpace(s[0]) {
      TrimSpaceKeepsAlnums(s[1..]);
      AlnumsConcat(s[..1], s[1..]);
      assert s == s[..1] + s[1..];
    } else if s != "" && IsSpace(s[|s| - 1]) {
      TrimSpaceKeepsAlnums(s[..|s| - 1]);
    }
  }

  lemma {:induction false} BuiltKeepsAlnums(s: string, n: nat)
    requires n <= |s|
    ensures Alnums(Built(s, n)) == Alnums(s[..n])
  {
    if n > 0 {
      BuiltKeepsAlnums(s, n - 1);
      var b := Built(s, n - 1);
      assert s[..n][..n - 1] == s[..n - 1];
      assert (b + [s[n - 1]])[..|b|] == b && (b + "-")[..|b|] == b;
    }
  }

  // Trimming the dashes of a built name and clipping it only drops letters at the end.
  lemma TrimKeepsAlnums(b: string)
    requires IsTidy(b) && (b != "" ==> b[0] != '-')
    ensures Alnums(TrimDash(b)) == Alnums(b)
  {
    TrimTidy(b);
  }

  lemma PrefixKeepsAlnums(r: string, t: string)
    requires r <= t
    ensures Alnums(r) <= Alnums(t)
  {
    AlnumsConcat(r, t[|r|..]);
    assert r + t[|r|..] == t;
  }

  /** The letters and digits of the lower-cased input stay, in order: a normalised name has
      a prefix of them, and all of them when nothing had to be cut. */
  lemma NormalizeKeepsAlnums(raw: string)
    requires Alnums(Lower(raw)) != ""
    ensures Alnums(Normalized(raw)) <= Alnums(Lower(raw))
    ensures Alnums(Uncut(raw)) == Alnums(Lower(raw))
    ensures Normalized(raw) <= Uncut(raw)
    ensures if |Uncut(raw)| <= MAX_DEVICE_NAME_LEN then Normalized(raw) == Uncut(raw)
            else |Normalized(raw)| >= MAX_DEVICE_NAME_LEN - 1
  {
    var s := TrimSpace(Lower(raw));
    TrimSpaceKeepsAlnums(Lower(raw));
    BuiltKeepsAlnums(s, |s|);
    assert s[..|s|] == s;
    BuiltIsTidy(s, |s|);
    TrimKeepsAlnums(Built(s, |s|));
    TrimTidy(Built(s, |s|));
    var t := TrimDash(Built(s, |s|));
    ClipKeepsNormal(t, MAX_DEVICE_NAME_LEN, "node");
    PrefixKeepsAlnums(Normalized(raw), t);
  }

  // ---- What normalising does to what lies between: the name is its words, joined.

  function Lengthened(ws: seq<string>, c: char): seq<string>
    requires ws != []
  {
    ws[..|ws| - 1] + [ws[|ws| - 1] + [c]]
  }

  // The maximal runs of letters and digits among the first n characters.
  function Words(s: string, n: nat): seq<string>
    requires n <= |s|
  {
    if n == 0 then []
    else
      var ws := Words(s, n - 1);
      if !IsAlnum(s[n - 1]) then ws
      else if n >= 2 && IsAlnum(s[n - 2]) && ws != [] then Lengthened(ws, s[n - 1])
      else ws + [[s[n - 1]]]
  }

  function Joined(ws: seq<string>): string {
    if ws == [] then ""
    else if |ws| == 1 then ws[0]
    else Joined(ws[..|ws| - 1]) + "-" + ws[|ws| - 1]
  }

  lemma {:induction false} AlnumOpensWord(s: string, n: nat)
    requires 0 < n <= |s| && IsAlnum(s[n - 1])
    ensures Words(s, n) != []
  {
  }

  lemma JoinedLengthened(ws: seq<string>, c: char)
    requires ws != []
    ensures Joined(Lengthened(ws, c)) == Joined(ws) + [c]
  {
    var longer, last := Lengthened(ws, c), ws[|ws| - 1];
    assert longer[..|ws| - 1] == ws[..|ws| - 1] && longer[|ws| - 1] == last + [c];
    if |ws| > 1 {
      assert Joined(longer) == Joined(ws[..|ws| - 1]) + "-" + (last + [c]);
    }
  }

  lemma JoinedNext(ws: seq<string>, w: string)
    ensures Joined(ws + [w]) == if ws == [] then w else Joined(ws) + "-" + w
  {
    assert (ws + [w])[..|ws|] == ws;
  }

  // The builder holds the words so far, joined, and a dash if it has just left a word.
  predicate HoldsWords(b: string, joined: string, some: bool, inWord: bool) {
    && (some ==> joined != "" && !EndsInDash(joined)) && (!some ==> joined == "")
    && b == joined + if some && !inWord then "-" else ""
  }

  lemma LetterGoesOn(b: string, ws: seq<string>, c: char)
    requires ws != [] && HoldsWords(b, Joined(ws), true, true) && IsAlnum(c)
    ensures HoldsWords(b + [c], Joined(Lengthened(ws, c)), true, true)
  {
    JoinedLengthened(ws, c);
  }

  lemma LetterOpens(b: string, ws: seq<string>, c: char)
    requires HoldsWords(b, Joined(ws), ws != [], false) && IsAlnum(c)
    ensures HoldsWords(b + [c], Joined(ws + [[c]]), true, true)
  {
    JoinedNext(ws, [c]);
    if ws != [] {
      assert b + [c] == Joined(ws) + "-" + [c];
    }
  }

  lemma {:induction false} BuiltIsJoined(s: string, n: nat)
    requires n <= |s|
    ensures HoldsWords(Built(s, n), Joined(Words(s, n)), Words(s, n) != [], n > 0 && IsAlnum(s[n - 1]))
  {
    if n > 0 {
      BuiltIsJoined(s, n - 1);
      var b, ws, c := Built(s, n - 1), Words(s, n - 1), s[n - 1];
      if IsAlnum(c) && n >= 2 && IsAlnum(s[n - 2]) {
        AlnumOpensWord(s, n - 1);
        LetterGoesOn(b, ws, c);
      } else if IsAlnum(c) {
        LetterOpens(b, ws, c);
      }
    }
  }

  /** A name that is not cut is the words of the lower-cased input, in order, with one dash
      between each two; "node" if there are none. */
  lemma UncutIsWordsJoined(raw: string)
    ensures var s := TrimSpace(Lower(raw)); Uncut(raw) == OrElse(Joined(Words(s, |s|)), "node")
  {
    var s := TrimSpace(Lower(raw));
    BuiltIsJoined(s, |s|);
    BuiltIsTidy(s, |s|);
    TrimTidy(Built(s, |s|));
  }

  predicate EndsWith(s: string, t: string) {
    |t| <= |s| && s[|s| - |t|..] == t
  }

  // ---- The code.

  method NormalizeDeviceName(raw: string) returns (out: string)
    requires IsAscii(raw)
    ensures out == Normalized(raw) && IsNormal(out)
  {
    var s := TrimSpace(Lower(raw));
    var b, prevDash := "", false;
    for i := 0 to |s|
      invariant b == Built(s, i) && (prevDash <==> EndsInDash(b))
    {
      if IsAlnum(s[i]) {
        b, prevDash := b + [s[i]], false;
      } else if !prevDash && |b| > 0 {
        b, prevDash := b + "-", true;
      }
    }
    out := TrimDash(b);
    if out == "" {
      out := "node";
    }
    if |out| > MAX_DEVICE_NAME_LEN {
      out := TrimDash(out[..MAX_DEVICE_NAME_LEN]);
      if out == "" {
        out := "node";
      }
    }
    NormalizedIsNormal(raw);
  }

  method AccountIDSuffix(accountID: string) returns (id4: string)
    requires IsAscii(accountID)
    ensures id4 == Suffix4(OrElse(Alnums(Lower(accountID)), "0000"))
    ensures EndsWith(OrElse(Alnums(Lower(accountID)), "0000"), id4)
    ensures |id4| == 4 || id4 == OrElse(Alnums(Lower(accountID)), "0000")
    ensures 1 <= |id4| <= 4 && forall k | 0 <= k < |id4| :: IsAlnum(id4[k])
  {
    var s := TrimSpace(Lower(accountID));
    TrimSpaceKeepsAlnums(Lower(accountID));
    var cleaned := "";
    for i := 0 to |s|
      invariant cleaned == Alnums(s[..i])
    {
      assert s[..i + 1][..i] == s[..i];
      if IsAlnum(s[i]) {
        cleaned := cleaned + [s[i]];
      }
    }
    assert s[..|s|] == s;
    AlnumsAreAlnum(s);
    if cleaned == "" {
      cleaned := "0000";
    }
    id4 := if |cleaned| > 4 then cleaned[|cleaned| - 4..] else cleaned;
    assert cleaned[0..] == cleaned;
  }

  // The host part of an automatic name: cut to fit, never empty.
  method ClipHost(name: string, max: nat) returns (host: string)
    requires IsNormal(name) && max >= 1
    ensures IsNormal(host) && |host| <= max && host <= name
    ensures if |name| <= max then host == name else |host| >= max - 1
  {
    host := name;
    ClipKeepsNormal(name, max, "n");
    if |name| > max {
      host := TrimDash(name[..max]);
      if host == "" {
        host := "n";
      }
    }
  }

  /** The automatic name is prefix-host-suffix, with the host cut to fit and the suffix
      always whole; the final normalisation changes nothing. */
  method BuildAutoDeviceName(team: bool, hostname: string, accountID: string)
      returns (out: string, ghost host: string, ghost id4: string)
    requires IsAscii(hostname) && IsAscii(accountID)
    ensures IsNormal(out) && out == (if team then "t" else "p") + "-" + host + "-" + id4
    ensures id4 == Suffix4(OrElse(Alnums(Lower(accountID)), "0000"))
    ensures host != "" && host <= Normalized(hostname)
    ensures if |Normalized(hostname)| <= 13 - |id4| then host == Normalized(hostname) else |host| >= 12 - |id4|
  {
    var prefix := if team then "t" else "p";
    var name := NormalizeDeviceName(hostname);
    var suffix := AccountIDSuffix(accountID);
    var maxHostLen := MAX_DEVICE_NAME_LEN - |prefix| - 1 - 1 - |suffix|;
    if maxHostLen < 1 {
      maxHostLen := 1;
    }
    name := ClipHost(name, maxHostLen);
    host, id4 := name, suffix;
    AutoNameIsNormal(prefix, name, suffix);
    NormalIsAscii(prefix + "-" + name + "-" + suffix);
    out := NormalizeDeviceName(prefix + "-" + name + "-" + suffix);
  }
}
