/**
  ExponentialBackoff.NextDelay of api/tunnel.go, over real nanoseconds: exact for the
  factor 2 in use, where every delay before the jitter is a whole number.
 */
module Backoff {
  import opened Naturals

  datatype ExponentialBackoff = ExponentialBackoff(initial: real, max: real, factor: real)

  function Pow(f: real, n: nat): real {
    if n == 0 then 1.0 else f * Pow(f, n - 1)
  }

  predicate Grows(b: ExponentialBackoff) {
    b.initial > 0.0 && b.factor > 1.0
  }

  // The delay reached by multiplying n times.
  function Raised(b: ExponentialBackoff, n: nat): real {
    b.initial * Pow(b.factor, n)
  }

  predicate Reaches(b: ExponentialBackoff, n: nat)
    requires b.factor > 0.0
  {
    Raised(b, n) >= b.max / b.factor
  }

  // n is the least exponent that reaches max / factor.
  predicate IsLeast(b: ExponentialBackoff, n: nat)
    requires b.factor > 0.0
  {
    Reaches(b, n) && forall j: nat | j < n :: !Reaches(b, j)
  }

  function Cap(b: ExponentialBackoff, d: real): real {
    if d > b.max then b.max else d
  }

  /** The delay of an attempt, and how many times the loop went round. `spread` is the
      random part of the jitter as a fraction of a tenth of the delay, anything below 2. */
  method NextDelay(b: ExponentialBackoff, attempt: int, spread: real) returns (delay: real, turns: nat)
    requires b.factor > 0.0 && 0.0 <= spread < 2.0
    ensures attempt <= 0 ==> delay == b.initial && turns == 0
    ensures attempt > 0 ==> var d := Cap(b, Raised(b, turns));
                            d > 0.0 ==> 0.9 * d <= delay < 1.1 * d
    ensures attempt > 0 ==> forall k: nat | IsLeast(b, k) :: turns == Min(attempt, k)
  {
    turns := 0;
    if attempt <= 0 {
      return b.initial, 0;
    }
    delay := b.initial;
    var limit := b.max / b.factor;
    while turns < attempt && delay < limit
      invariant turns <= attempt && delay == Raised(b, turns)
      invariant forall j: nat | j < turns :: !Reaches(b, j)
    {
      delay := delay * b.factor;
      turns := turns + 1;
    }
    assert turns < attempt ==> Reaches(b, turns);
    if delay > b.max {
      delay := b.max;
    }
    var jitter := delay / 10.0;
    JitterSpread(jitter, spread);
    delay := delay - jitter + jitter * spread;
  }

  // ---- What the delays are.

  lemma {:induction false} PowPositive(f: real, n: nat)
    requires f > 0.0
    ensures Pow(f, n) > 0.0
  {
    if n > 0 {
      PowPositive(f, n - 1);
    }
  }

  lemma BernoulliStep(e: real, m: real, p: real)
    requires e > 0.0 && m >= 0.0 && p >= 1.0 + e * m
    ensures (1.0 + e) * p >= 1.0 + e * (m + 1.0)
  {
    MulMono(1.0 + e, 1.0 + e * m, p);
    Square(m, e);
    Expand(e, m);
  }

  lemma Expand(e: real, m: real)
    ensures (1.0 + e) * (1.0 + e * m) == 1.0 + e * (m + 1.0) + e * m * e
  {
  }

  // Bernoulli's inequality.
  lemma {:induction false} PowAtLeast(f: real, n: nat)
    requires f > 1.0
    ensures Pow(f, n) >= 1.0 + (f - 1.0) * n as real
  {
    if n > 0 {
      PowAtLeast(f, n - 1);
      BernoulliStep(f - 1.0, (n - 1) as real, Pow(f, n - 1));
      assert (n - 1) as real + 1.0 == n as real;
      assert 1.0 + (f - 1.0) == f;
    }
  }

  lemma MulMono(f: real, x: real, y: real)
    requires f >= 0.0 && x <= y
    ensures f * x <= f * y
  {
  }

  lemma Multiplies(f: real, x: real)
    requires f >= 1.0 && x >= 0.0
    ensures x <= f * x
  {
    var e := f - 1.0;
    MulMono(e, 0.0, x);
    assert f * x == x + e * x;
  }

  lemma PowGrows(f: real, n: nat)
    requires f > 1.0
    ensures Pow(f, n) <= Pow(f, n + 1)
  {
    PowPositive(f, n);
    Multiplies(f, Pow(f, n));
  }

  lemma Square(m: real, e: real)
    requires m >= 0.0 && e >= 0.0
    ensures e * m * e >= 0.0
  {
    MulMono(e, 0.0, m);
    MulMono(e, 0.0, e * m);
  }

  lemma DivMul(x: real, y: real)
    requires y > 0.0
    ensures y * (x / y) == x
  {
  }

  lemma Archimedes(e: real, ratio: real) returns (n: nat)
    requires e > 0.0 && ratio > 0.0
    ensures ratio <= e * n as real
  {
    var q := ratio / e;
    DivMul(ratio, e);
    n := q.Floor + 1;
    MulMono(e, q, n as real);
  }

  lemma PowReaches(f: real, ratio: real) returns (n: nat)
    requires f > 1.0 && ratio > 0.0
    ensures ratio <= Pow(f, n)
  {
    n := Archimedes(f - 1.0, ratio);
    PowAtLeast(f, n);
  }

  // Some exponent reaches any limit.
  lemma SomeReaches(b: ExponentialBackoff) returns (n: nat)
    requires Grows(b)
    ensures Reaches(b, n)
  {
    var limit := b.max / b.factor;
    if limit <= b.initial {
      n := 0;
    } else {
      DivMul(limit, b.initial);
      var ratio := limit / b.initial;
      Positive(ratio, b.initial);
      n := PowReaches(b.factor, ratio);
      MulMono(b.initial, ratio, Pow(b.factor, n));
    }
  }

  lemma Positive(x: real, y: real)
    requires y > 0.0 && y * x > 0.0
    ensures x > 0.0
  {
    if x <= 0.0 {
      MulMono(y, x, 0.0);
    }
  }

  lemma {:induction false} LeastBelow(b: ExponentialBackoff, n: nat) returns (k: nat)
    requires Grows(b) && Reaches(b, n)
    ensures IsLeast(b, k) && k <= n
  {
    if j: nat :| j < n && Reaches(b, j) {
      k := LeastBelow(b, j);
    } else {
      k := n;
    }
  }

  lemma {:induction false} RaisedMonotone(b: ExponentialBackoff, m: nat, n: nat)
    requires Grows(b) && m <= n
    ensures 0.0 < b.initial <= Raised(b, m) <= Raised(b, n)
    decreases n
  {
    if n > 0 {
      RaisedMonotone(b, if m == n then m - 1 else m, n - 1);
      PowGrows(b.factor, n - 1);
      MulMono(b.initial, Pow(b.factor, n - 1), Pow(b.factor, n));
    }
  }

  /** The delay before the jitter: one exponent K, the least reaching max / factor, bounds
      the loop for every attempt; the delay is initial * factor^min(attempt, K), never
      above max when the initial delay is not. */
  lemma DelayBeforeJitter(b: ExponentialBackoff) returns (k: nat)
    requires Grows(b) && b.initial <= b.max
    ensures IsLeast(b, k)
    ensures forall attempt: nat :: var d := Raised(b, Min(attempt, k));
                                   b.initial <= d <= b.max && Cap(b, d) == d
  {
    var n := SomeReaches(b);
    k := LeastBelow(b, n);
    forall attempt: nat
      ensures var d := Raised(b, Min(attempt, k)); b.initial <= d <= b.max && Cap(b, d) == d
    {
      var m := Min(attempt, k);
      RaisedMonotone(b, 0, m);
      if m > 0 {
        assert !Reaches(b, m - 1);
        MulMono(b.factor, Raised(b, m - 1), b.max / b.factor);
        assert Raised(b, m) == b.factor * Raised(b, m - 1);
      }
    }
  }

  /** The first delay is the initial one, and below K every further attempt multiplies the
      delay by the factor. */
  lemma EachTurnMultiplies(b: ExponentialBackoff, k: nat, attempt: nat)
    requires b.factor > 0.0 && IsLeast(b, k)
    ensures Raised(b, Min(0, k)) == b.initial
    ensures attempt < k ==> Raised(b, Min(attempt + 1, k)) == Raised(b, Min(attempt, k)) * b.factor
  {
  }

  /** The delay before the jitter grows with the attempt. */
  lemma DelayMonotone(b: ExponentialBackoff, k: nat, m: nat, n: nat)
    requires Grows(b) && IsLeast(b, k) && m <= n
    ensures Cap(b, Raised(b, Min(m, k))) <= Cap(b, Raised(b, Min(n, k)))
  {
    RaisedMonotone(b, Min(m, k), Min(n, k));
  }

  /** From the attempt K on one more multiplication would reach the cap. */
  lemma DelaySettles(b: ExponentialBackoff, k: nat, attempt: nat)
    requires Grows(b) && IsLeast(b, k) && attempt >= k
    ensures Raised(b, Min(attempt, k)) * b.factor >= b.max
  {
    MulMono(b.factor, b.max / b.factor, Raised(b, k));
  }

  lemma JitterSpread(jitter: real, spread: real)
    requires 0.0 <= spread < 2.0
    ensures jitter > 0.0 ==> 0.0 <= jitter * spread < jitter * 2.0
  {
    if jitter > 0.0 {
      MulMono(jitter, 0.0, spread);
    }
  }
}
