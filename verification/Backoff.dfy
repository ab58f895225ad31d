/** Retry backoff with exact numbers: validation, merging over the defaults, and the delay. */
module Backoff {
  import opened Options

  /** A number as a policy may carry it. */
  datatype Numeric = Finite(value: real) | NotFinite

  /** An absent field and an explicit undefined are the same. */
  datatype Policy = Policy(maxAttempts: Option<Numeric>, baseMs: Option<Numeric>, factor: Option<Numeric>, maxMs: Option<Numeric>)
  datatype Resolved = Resolved(maxAttempts: int, baseMs: real, factor: real, maxMs: real)

  const DEFAULT := Resolved(3, 1000.0, 2.0, 300000.0)
  const MAX_ATTEMPTS: int := 2147483647

  predicate Integral(x: Numeric) {
    x.Finite? && x.value.Floor as real == x.value
  }

  predicate AtLeast(x: Option<Numeric>, least: real) {
    x.Some? ==> x.value.Finite? && x.value.value >= least
  }

  predicate Valid(p: Policy) {
    && (p.maxAttempts.Some? ==> Integral(p.maxAttempts.value) && 1.0 <= p.maxAttempts.value.value <= MAX_ATTEMPTS as real)
    && AtLeast(p.baseMs, 0.0) && AtLeast(p.factor, 1.0) && AtLeast(p.maxMs, 0.0)
  }

  function Or(x: Option<Numeric>, fallback: real): real {
    if x.Some? && x.value.Finite? then x.value.value else fallback
  }

  /** Merges a policy over the defaults, or refuses it. */
  function Resolve(p: Option<Policy>): Option<Resolved> {
    match p
    case None => Some(DEFAULT)
    case Some(q) =>
      if !Valid(q) then None
      else Some(Resolved(Or(q.maxAttempts, DEFAULT.maxAttempts as real).Floor, Or(q.baseMs, DEFAULT.baseMs),
                         Or(q.factor, DEFAULT.factor), Or(q.maxMs, DEFAULT.maxMs)))
  }

  function Pow(x: real, n: nat): real {
    if n == 0 then 1.0 else x * Pow(x, n - 1)
  }

  function Exponent(attempt: int): nat {
    if attempt - 1 > 0 then attempt - 1 else 0
  }

  function Uncapped(p: Resolved, attempt: int): real {
    p.baseMs * Pow(p.factor, Exponent(attempt))
  }

  /** The delay before the next attempt, without jitter; `attempt` is the one that just failed. */
  function Raw(p: Resolved, attempt: int): real {
    if p.baseMs == 0.0 then 0.0 else if Uncapped(p, attempt) < p.maxMs then Uncapped(p, attempt) else p.maxMs
  }

  function Round(x: real): int {
    (x + 0.5).Floor
  }

  function Jitter(rand: real): real {
    0.8 + rand * 0.4
  }

  function Jittered(raw: real, rand: real): int {
    Round(raw * Jitter(rand))
  }

  function Delay(p: Resolved, attempt: int, rand: real): int {
    Jittered(Raw(p, attempt), rand)
  }

  /* ---- what any accepted policy gives ---- */

  predicate Sane(p: Resolved) {
    1 <= p.maxAttempts <= MAX_ATTEMPTS && p.baseMs >= 0.0 && p.factor >= 1.0 && p.maxMs >= 0.0
  }

  /** A whole number in a range, or a number not below a bound; NaN and the infinities are neither. */
  predicate WholeBetween(x: Numeric, least: int, most: int) {
    x != NotFinite && least as real <= x.value <= most as real && x.value == x.value.Floor as real
  }

  predicate NotBelow(x: Numeric, least: real) {
    x != NotFinite && x.value >= least
  }

  /** A policy is refused exactly when a field that is present is out of range: maxAttempts a whole number
      from 1 to 2147483647, baseMs and maxMs not negative, factor at least 1. What is merged has every
      field that is present, and 3 attempts, 1000 ms, factor 2 and 300000 ms for the absent ones. */
  lemma ResolvesExactly(p: Option<Policy>)
    ensures Resolve(p).Some? <==> (p.Some? ==>
      && (p.value.maxAttempts.Some? ==> WholeBetween(p.value.maxAttempts.value, 1, 2147483647))
      && (p.value.baseMs.Some? ==> NotBelow(p.value.baseMs.value, 0.0))
      && (p.value.factor.Some? ==> NotBelow(p.value.factor.value, 1.0))
      && (p.value.maxMs.Some? ==> NotBelow(p.value.maxMs.value, 0.0)))
    ensures Resolve(p).Some? ==> Sane(Resolve(p).value)
    ensures p.None? ==> Resolve(p) == Some(Resolved(3, 1000.0, 2.0, 300000.0))
    ensures Resolve(p).Some? && p.Some? ==>
      var r := Resolve(p).value;
      && (if p.value.maxAttempts.Some? then p.value.maxAttempts == Some(Finite(r.maxAttempts as real)) else r.maxAttempts == 3)
      && (if p.value.baseMs.Some? then p.value.baseMs == Some(Finite(r.baseMs)) else r.baseMs == 1000.0)
      && (if p.value.factor.Some? then p.value.factor == Some(Finite(r.factor)) else r.factor == 2.0)
      && (if p.value.maxMs.Some? then p.value.maxMs == Some(Finite(r.maxMs)) else r.maxMs == 300000.0)
  {
  }

  lemma {:induction false} PowGrows(x: real, m: nat, n: nat)
    requires x >= 1.0 && m <= n
    ensures 1.0 <= Pow(x, m) <= Pow(x, n)
    decreases n
  {
    if n > 0 {
      PowGrows(x, 0, n - 1);
      assert x * Pow(x, n - 1) >= Pow(x, n - 1);
      if m < n { PowGrows(x, m, n - 1); }
    }
  }

  lemma Scale(b: real, x: real, y: real)
    requires b >= 0.0 && 0.0 <= x <= y
    ensures 0.0 <= b * x <= b * y
  {
  }

  /** The unjittered delay never falls from one attempt to a later one, and never exceeds maxMs. */
  lemma RawRises(p: Resolved, attempt: int, later: int)
    requires Sane(p) && attempt <= later
    ensures 0.0 <= Raw(p, attempt) <= Raw(p, later) <= p.maxMs
  {
    PowGrows(p.factor, Exponent(attempt), Exponent(later));
    Scale(p.baseMs, Pow(p.factor, Exponent(attempt)), Pow(p.factor, Exponent(later)));
  }

  function Smaller(a: real, b: real): real {
    if a < b then a else b
  }

  /** The first failure waits baseMs and every further one factor times as long as the one before,
      up to maxMs. */
  lemma RawGrows(p: Resolved, attempt: int)
    requires Sane(p)
    ensures attempt <= 1 ==> Raw(p, attempt) == Smaller(p.baseMs, p.maxMs)
    ensures attempt >= 1 ==> Raw(p, attempt + 1) == Smaller(p.factor * Raw(p, attempt), p.maxMs)
  {
    RawIsCapped(p, attempt);
    if attempt >= 1 {
      RawIsCapped(p, attempt + 1);
      UncappedGrows(p, attempt);
      Capped(Uncapped(p, attempt), p.factor, p.maxMs);
    }
  }

  lemma RawIsCapped(p: Resolved, attempt: int)
    requires Sane(p)
    ensures Raw(p, attempt) == Smaller(Uncapped(p, attempt), p.maxMs)
    ensures attempt <= 1 ==> Uncapped(p, attempt) == p.baseMs
  {
    assert p.baseMs == 0.0 ==> Uncapped(p, attempt) == 0.0;
  }

  lemma UncappedGrows(p: Resolved, attempt: int)
    requires attempt >= 1
    ensures Uncapped(p, attempt + 1) == p.factor * Uncapped(p, attempt)
  {
    Reassociate(p.baseMs, p.factor, Pow(p.factor, attempt - 1));
  }

  lemma Reassociate(b: real, f: real, x: real)
    ensures b * (f * x) == f * (b * x)
  {
  }

  lemma Capped(u: real, f: real, m: real)
    requires f >= 1.0 && m >= 0.0
    ensures Smaller(f * u, m) == Smaller(f * Smaller(u, m), m)
  {
    if u >= m {
      Scale(f, m, u);
      Scale(m, 1.0, f);
      assert m * f == f * m;
    }
  }

  lemma {:induction false} PowExceeds(x: real, n: nat)
    requires x >= 1.0
    ensures Pow(x, n) >= 1.0 + n as real * (x - 1.0)
  {
    if n > 0 {
      PowExceeds(x, n - 1);
      PowGrows(x, 0, n - 1);
      OneMore(x, Pow(x, n - 1), (n - 1) as real);
    }
  }

  lemma OneMore(x: real, power: real, n: real)
    requires x >= 1.0 && power >= 1.0 && power >= 1.0 + n * (x - 1.0)
    ensures x * power >= 1.0 + (n + 1.0) * (x - 1.0)
  {
    Scale(x - 1.0, 1.0, power);
    assert x * power == power + (x - 1.0) * power;
    assert (n + 1.0) * (x - 1.0) == n * (x - 1.0) + (x - 1.0);
  }

  /** Enough doublings, or whatever the factor is, to pass a bound. */
  lemma Enough(x: real, bound: real) returns (k: nat)
    requires x > 1.0 && bound >= 0.0
    ensures Pow(x, k) >= bound
  {
    var step := x - 1.0;
    k := (bound / step).Floor + 1;
    PowExceeds(x, k);
    Scale(step, bound / step, k as real);
  }

  /** With a positive base and a factor above 1 the delay reaches maxMs after finitely many
      attempts, and stays there. */
  lemma RawReachesMax(p: Resolved) returns (n: nat)
    requires Sane(p) && p.baseMs > 0.0 && p.factor > 1.0
    ensures forall attempt: int :: attempt >= n ==> Raw(p, attempt) == p.maxMs
  {
    var bound := p.maxMs / p.baseMs;
    var k := Enough(p.factor, bound);
    n := k + 1;
    forall attempt: int | attempt >= n ensures Raw(p, attempt) == p.maxMs {
      PowGrows(p.factor, k, Exponent(attempt));
      Scale(p.baseMs, bound, Pow(p.factor, Exponent(attempt)));
    }
  }

  lemma RoundNear(x: real, low: real, high: real)
    requires low <= x <= high
    ensures low - 0.5 <= Round(x) as real <= high + 0.5 && Round(x) <= Round(high)
  {
  }

  lemma JitteredNear(raw: real, most: real, rand: real)
    requires 0.0 <= raw <= most && 0.0 <= rand < 1.0
    ensures raw * 0.8 - 0.5 <= Jittered(raw, rand) as real <= raw * 1.2 + 0.5
    ensures 0 <= Jittered(raw, rand) <= Round(most * 1.2)
  {
    var share := raw * rand;
    Scale(raw, 0.0, rand);
    Scale(raw, rand, 1.0);
    Spread(raw, rand);
    RoundNear(raw * 0.8 + share * 0.4, raw * 0.8, raw * 1.2);
    RoundNear(raw * 0.8 + share * 0.4, 0.0, most * 1.2);
  }

  lemma Spread(raw: real, rand: real)
    ensures Jittered(raw, rand) == Round(raw * 0.8 + raw * rand * 0.4)
  {
    assert raw * Jitter(rand) == raw * 0.8 + raw * rand * 0.4;
  }

  /** The jittered delay is within rounding of 0.8 to 1.2 times the unjittered one. */
  lemma JitterBounds(p: Resolved, attempt: int, rand: real)
    requires Sane(p) && 0.0 <= rand < 1.0
    ensures Raw(p, attempt) * 0.8 - 0.5 <= Delay(p, attempt, rand) as real <= Raw(p, attempt) * 1.2 + 0.5
    ensures 0 <= Delay(p, attempt, rand) <= Round(p.maxMs * 1.2)
  {
    RawRises(p, attempt, attempt);
    JitteredNear(Raw(p, attempt), p.maxMs, rand);
  }
}
