/** What the gate admits, from above and from below, in the fields of the configuration: a key at rps or
    readRps, an endpoint at globalRps or readGlobalRps, each with its burst. */
module GateBounds {
  import opened TokenBuckets

  /** The limits a request of an endpoint comes under. */
  function PerKeyRps(cfg: Config, e: Endpoint): nat {
    if e == Read then cfg.readRps else cfg.rps
  }

  function PerEndpointRps(cfg: Config, e: Endpoint): nat {
    if e == Read then cfg.readGlobalRps else cfg.globalRps
  }

  /* ---- names ---- */

  lemma NamesPlain(e: Endpoint)
    ensures forall i :: 0 <= i < |Name(e)| ==> Name(e)[i] != ':'
  {
  }

  lemma NameLengths(d: Endpoint, e: Endpoint)
    ensures |Name(d)| == |Name(e)| <==> d == e
  {
  }

  lemma KeyBucketParts(e: Endpoint, k: string)
    ensures var b, n := KeyBucket(e, k), |Name(e)|;
      && |b| == 4 + n + 1 + |k| && b[4 + n] == ':' && b[4 + n + 1..] == k && (forall i :: 0 <= i < n ==> b[4 + i] == Name(e)[i])
  {
  }

  lemma LongerNameDiffers(d: Endpoint, k: string, e: Endpoint, l: string)
    requires |Name(d)| < |Name(e)|
    ensures KeyBucket(d, k) != KeyBucket(e, l)
  {
    KeyBucketParts(d, k);
    KeyBucketParts(e, l);
    NamesPlain(e);
    assert KeyBucket(e, l)[4 + |Name(d)|] == Name(e)[|Name(d)|];
  }

  /** Two requests share their key's bucket exactly when endpoint and key are the same. */
  lemma KeyBucketsApart(d: Endpoint, k: string, e: Endpoint, l: string)
    ensures KeyBucket(d, k) == KeyBucket(e, l) <==> d == e && k == l
  {
    NameLengths(d, e);
    if |Name(d)| < |Name(e)| {
      LongerNameDiffers(d, k, e, l);
    } else if |Name(e)| < |Name(d)| {
      LongerNameDiffers(e, l, d, k);
    } else {
      KeyBucketParts(d, k);
      KeyBucketParts(e, l);
    }
  }

  /* ---- from above, for one key ---- */

  function AdmittedKey(b: Buckets, e: Endpoint, keyId: string, rs: seq<Request>): nat
    decreases rs
  {
    if rs == [] then 0
    else
      (if rs[0].endpoint == e && rs[0].keyId == keyId && Gate(b, rs[0]).1 then 1 else 0)
      + AdmittedKey(Gate(b, rs[0]).0, e, keyId, rs[1..])
  }

  /** The key's requests are limited, by at most this rate and burst. */
  predicate KeyLimited(r: Request, e: Endpoint, keyId: string, rate: real, burst: nat) {
    r.endpoint == e && r.keyId == keyId ==>
      0 < PerKeyRps(r.cfg, e) && PerKeyRps(r.cfg, e) as real <= rate && 0 < r.cfg.burst <= burst
  }

  predicate OfKey(r: Request, e: Endpoint, keyId: string) {
    r.endpoint == e && r.keyId == keyId
  }

  /** A request does not make the table give up the key's bucket, not even the one it makes itself. */
  predicate Keeps(b: Buckets, r: Request, e: Endpoint, keyId: string) {
    KeyBucket(e, keyId) in b.table || (OfKey(r, e, keyId) && r.cfg.burst > 0) ==> KeyBucket(e, keyId) in Gate(b, r).0.table
  }

  predicate NeverGivenUp(b: Buckets, e: Endpoint, keyId: string, rs: seq<Request>)
    decreases rs
  {
    rs == [] || (Keeps(b, rs[0], e, keyId) && NeverGivenUp(Gate(b, rs[0]).0, e, keyId, rs[1..]))
  }

  lemma GlobalAskSpares(b: Buckets, r: Request, e: Endpoint, keyId: string, rps: nat)
    requires Sound(b)
    ensures var q := Ask(b, r.now, GlobalBucket(r.endpoint), rps, r.cfg.burst).0; var name := KeyBucket(e, keyId);
      name in q.table ==> name in b.table && q.table[name] == b.table[name]
  {
    NamesApart(r.endpoint, r.keyId);
    NamesApart(e, keyId);
    ConsumeOther(b, r.now, GlobalBucket(r.endpoint), rps as real, r.cfg.burst, KeyBucket(e, keyId));
  }

  lemma GateKeyBudget(b: Buckets, r: Request, e: Endpoint, keyId: string, rate: real, burst: nat, from: real, used: nat) returns (more: nat)
    requires Sound(b) && KeyLimited(r, e, keyId, rate, burst) && from <= r.now && Keeps(b, r, e, keyId)
    requires Holding(b, KeyBucket(e, keyId), rate, burst, from, r.now, used)
    ensures Holding(Gate(b, r).0, KeyBucket(e, keyId), rate, burst, from, r.now, more)
    ensures more >= used + if OfKey(r, e, keyId) && Gate(b, r).1 then 1 else 0
  {
    more := used;
    if r.cfg.burst > 0 {
      KeyBucketsApart(r.endpoint, r.keyId, e, keyId);
      NamesApart(r.endpoint, r.keyId);
      NamesApart(e, keyId);
      var asked, name, global := KeyBucket(r.endpoint, r.keyId), KeyBucket(e, keyId), GlobalBucket(r.endpoint);
      var (k, ok) := Ask(b, r.now, asked, KeyRate(r.cfg, r.endpoint), r.cfg.burst);
      AskKeepsSound(b, r.now, asked, KeyRate(r.cfg, r.endpoint), r.cfg.burst);
      if ok { GlobalAskSpares(k, r, e, keyId, GlobalRate(r.cfg, r.endpoint)); }
      AskBudget(b, r.now, asked, KeyRate(r.cfg, r.endpoint), r.cfg.burst, name, rate, burst, from, used);
      if ok {
        if asked == name { more := used + 1; }
        AskedIsOf(b, r, e, keyId);
        AskBudget(k, r.now, global, GlobalRate(r.cfg, r.endpoint), r.cfg.burst, name, rate, burst, from, more);
      }
    }
  }

  /** What the key's bucket says puts no other bucket of a key into the table. */
  lemma AskedIsOf(b: Buckets, r: Request, e: Endpoint, keyId: string)
    requires Sound(b)
    ensures KeyBucket(e, keyId) in Ask(b, r.now, KeyBucket(r.endpoint, r.keyId), KeyRate(r.cfg, r.endpoint), r.cfg.burst).0.table ==>
      KeyBucket(e, keyId) in b.table || OfKey(r, e, keyId)
  {
    KeyBucketsApart(r.endpoint, r.keyId, e, keyId);
    ConsumeListed(b, r.now, KeyBucket(r.endpoint, r.keyId), KeyRate(r.cfg, r.endpoint) as real, r.cfg.burst);
  }

  lemma {:induction false} KeyBudget(b: Buckets, e: Endpoint, keyId: string, rate: real, burst: nat, rs: seq<Request>, from: real, now: real, used: nat)
    returns (total: nat)
    requires Sound(b) && from <= now && Monotone(now, rs) && NeverGivenUp(b, e, keyId, rs)
    requires forall i :: 0 <= i < |rs| ==> KeyLimited(rs[i], e, keyId, rate, burst)
    requires Holding(b, KeyBucket(e, keyId), rate, burst, from, now, used)
    ensures total >= used + AdmittedKey(b, e, keyId, rs)
    ensures Holding(After(b, rs), KeyBucket(e, keyId), rate, burst, from, Latest(now, rs), total)
    ensures from <= now <= Latest(now, rs)
    decreases rs
  {
    if rs == [] {
      total := used;
    } else {
      LaterHolding(b, KeyBucket(e, keyId), rate, burst, from, now, rs[0].now, used);
      var more := GateKeyBudget(b, rs[0], e, keyId, rate, burst, from, used);
      GateKeepsSound(b, rs[0]);
      total := KeyBudget(Gate(b, rs[0]).0, e, keyId, rate, burst, rs[1..], from, rs[0].now, more);
    }
  }

  lemma GateKeyLevel(b: Buckets, r: Request, e: Endpoint, keyId: string, burst: nat, past: real)
    requires Level(b, KeyBucket(e, keyId), burst, past) && past <= r.now && (OfKey(r, e, keyId) ==> r.cfg.burst <= burst)
    ensures Level(Gate(b, r).0, KeyBucket(e, keyId), burst, r.now)
  {
    KeyBucketsApart(r.endpoint, r.keyId, e, keyId);
    NamesApart(r.endpoint, r.keyId);
    NamesApart(e, keyId);
    var asked, global, name := KeyBucket(r.endpoint, r.keyId), GlobalBucket(r.endpoint), KeyBucket(e, keyId);
    var k := Ask(b, r.now, asked, KeyRate(r.cfg, r.endpoint), r.cfg.burst).0;
    AskLevel(b, r.now, asked, KeyRate(r.cfg, r.endpoint), r.cfg.burst, name, burst, past);
    AskLevel(k, r.now, global, GlobalRate(r.cfg, r.endpoint), r.cfg.burst, name, burst, r.now);
  }

  lemma {:induction false} KeyLevels(b: Buckets, rs: seq<Request>, e: Endpoint, keyId: string, burst: nat, now: real)
    requires Level(b, KeyBucket(e, keyId), burst, now) && Monotone(now, rs)
    requires forall i :: 0 <= i < |rs| && OfKey(rs[i], e, keyId) ==> rs[i].cfg.burst <= burst
    ensures Level(After(b, rs), KeyBucket(e, keyId), burst, Latest(now, rs)) && now <= Latest(now, rs)
    decreases rs
  {
    if rs != [] {
      GateKeyLevel(b, rs[0], e, keyId, burst, now);
      KeyLevels(Gate(b, rs[0]).0, rs[1..], e, keyId, burst, rs[0].now);
    }
  }

  /** In any window in which its bucket is not given up, a key passes an endpoint at most burst + rate *
      length times, the rate being a bound on rps, or for reads on readRps. */
  lemma KeyWindowBound(e: Endpoint, keyId: string, rate: real, burst: nat, before: seq<Request>, window: seq<Request>, start: real, from: real)
    requires rate >= 0.0 && Monotone(start, before) && Latest(start, before) <= from && Monotone(from, window)
    requires forall i :: 0 <= i < |before| && OfKey(before[i], e, keyId) ==> before[i].cfg.burst <= burst
    requires forall i :: 0 <= i < |window| ==> KeyLimited(window[i], e, keyId, rate, burst)
    requires NeverGivenUp(After(Empty, before), e, keyId, window)
    ensures AdmittedKey(After(Empty, before), e, keyId, window) as real <= burst as real + Earned(rate, from, Latest(from, window))
  {
    EmptySound();
    TableBounded(Empty, before);
    KeyLevels(Empty, before, e, keyId, burst, start);
    var b := After(Empty, before);
    assert Level(b, KeyBucket(e, keyId), burst, from);
    LevelBegins(b, KeyBucket(e, keyId), rate, burst, from);
    var total := KeyBudget(b, e, keyId, rate, burst, window, from, from, 0);
    BudgetBounds(After(b, window), KeyBucket(e, keyId), rate, burst, from, Latest(from, window), total);
  }

  /* ---- from below ---- */

  /** No bucket owes tokens, and none has been refilled later than now. */
  ghost predicate Solvent(b: Buckets, now: real) {
    forall name :: name in b.table ==> b.table[name].tokens >= 0.0 && b.table[name].refillAt <= now
  }

  lemma RefillSolvent(k: Bucket, now: real, rate: real, capacity: nat)
    requires k.tokens >= 0.0 && k.refillAt <= now && rate >= 0.0
    ensures var q := Refill(k, now, rate, capacity as real); q.tokens >= 0.0 && q.refillAt <= now
  {
    EarnedLess(rate, rate, k.refillAt, now);
  }

  lemma ConsumeSolvent(b: Buckets, now: real, name: string, rate: real, capacity: nat, past: real)
    requires Solvent(b, past) && past <= now && rate >= 0.0
    ensures Solvent(Consume(b, now, name, rate, capacity).0, now)
  {
    var q := Consume(b, now, name, rate, capacity).0;
    if name in b.table { RefillSolvent(b.table[name], now, rate, capacity); }
    forall n | n in q.table ensures q.table[n].tokens >= 0.0 && q.table[n].refillAt <= now {
      if n != name { MakeRoomSpares(b, n); }
    }
  }

  lemma AskSolvent(b: Buckets, now: real, name: string, rate: nat, capacity: nat, past: real)
    requires Solvent(b, past) && past <= now
    ensures Solvent(Ask(b, now, name, rate, capacity).0, now)
  {
    ConsumeSolvent(b, now, name, rate as real, capacity, past);
  }

  lemma GateSolvent(b: Buckets, r: Request, past: real)
    requires Solvent(b, past) && past <= r.now
    ensures Solvent(Gate(b, r).0, r.now)
  {
    var k := Ask(b, r.now, KeyBucket(r.endpoint, r.keyId), KeyRate(r.cfg, r.endpoint), r.cfg.burst).0;
    AskSolvent(b, r.now, KeyBucket(r.endpoint, r.keyId), KeyRate(r.cfg, r.endpoint), r.cfg.burst, past);
    AskSolvent(k, r.now, GlobalBucket(r.endpoint), GlobalRate(r.cfg, r.endpoint), r.cfg.burst, r.now);
  }

  lemma {:induction false} RequestsSolvent(b: Buckets, rs: seq<Request>, now: real)
    requires Solvent(b, now) && Monotone(now, rs)
    ensures Solvent(After(b, rs), Latest(now, rs)) && now <= Latest(now, rs)
    decreases rs
  {
    if rs != [] {
      GateSolvent(b, rs[0], now);
      RequestsSolvent(Gate(b, rs[0]).0, rs[1..], rs[0].now);
    }
  }

  /** A pause since `past` in which this rate earns so many tokens. */
  predicate Earns(rps: nat, past: real, now: real, n: nat) {
    (now - past) * rps as real >= 1000.0 * n as real
  }

  lemma Thousandth(time: real, rate: real)
    ensures time / 1000.0 * rate == time * rate / 1000.0
  {
  }

  lemma PauseEarns(k: Bucket, rps: nat, past: real, now: real, capacity: nat, n: nat)
    requires k.tokens >= 0.0 && k.refillAt <= past <= now && rps > 0 && Earns(rps, past, now, n) && 0 < n <= capacity
    ensures var q := Refill(k, now, rps as real, capacity as real); q.tokens >= n as real && q.refillAt == now
  {
    var rate := rps as real;
    var pause, time := now - past, now - k.refillAt;
    Faster(rate, pause, time);
    assert rate * pause == pause * rate && rate * time == time * rate;
    assert pause > 0.0;
    Thousandth(time, rate);
    assert time * rate >= 1000.0 * n as real;
    var elapsed := (now - k.refillAt) / 1000.0;
    assert elapsed > 0.0 && elapsed * rate >= n as real;
    assert capacity as real >= n as real && k.tokens + elapsed * rate >= n as real;
    assert Refill(k, now, rate, capacity as real) == Bucket(Smaller(capacity as real, k.tokens + elapsed * rate), now);
  }

  /** The bucket is off, or new, or has this many tokens. */
  predicate Open(b: Buckets, name: string, rps: nat, now: real, burst: nat, n: nat) {
    rps == 0 || (n <= burst && (name in b.table ==> b.table[name].tokens >= n as real && b.table[name].refillAt == now))
  }

  /** The bucket is off, or new, or has earned this many since it was last asked. */
  predicate Paused(b: Buckets, name: string, rps: nat, past: real, now: real, burst: nat, n: nat) {
    rps == 0 || (n <= burst && (name in b.table ==>
      b.table[name].tokens >= 0.0 && b.table[name].refillAt <= past && Earns(rps, past, now, n)))
  }

  lemma OpenAsk(b: Buckets, past: real, now: real, name: string, rps: nat, burst: nat, n: nat)
    requires n > 0 && past <= now && (Open(b, name, rps, now, burst, n) || Paused(b, name, rps, past, now, burst, n))
    ensures var (q, ok) := Ask(b, now, name, rps, burst); ok && Open(q, name, rps, now, burst, n - 1)
  {
    if !Open(b, name, rps, now, burst, n) && name in b.table { PauseEarns(b.table[name], rps, past, now, burst, n); }
  }

  /** Both buckets of a request grant this many. */
  predicate BothGrant(b: Buckets, r: Request, past: real, n: nat) {
    var key, global := KeyBucket(r.endpoint, r.keyId), GlobalBucket(r.endpoint);
    var rps, globalRps := PerKeyRps(r.cfg, r.endpoint), PerEndpointRps(r.cfg, r.endpoint);
    && (Open(b, key, rps, r.now, r.cfg.burst, n) || Paused(b, key, rps, past, r.now, r.cfg.burst, n))
    && (Open(b, global, globalRps, r.now, r.cfg.burst, n) || Paused(b, global, globalRps, past, r.now, r.cfg.burst, n))
  }

  lemma BurstStep(b: Buckets, r: Request, past: real, n: nat)
    requires Sound(b) && n > 0 && r.cfg.burst > 0 && past <= r.now && BothGrant(b, r, past, n)
    ensures Gate(b, r).1 && BothGrant(Gate(b, r).0, r, past, n - 1)
  {
    var key, global := KeyBucket(r.endpoint, r.keyId), GlobalBucket(r.endpoint);
    NamesApart(r.endpoint, r.keyId);
    OpenAsk(b, past, r.now, key, PerKeyRps(r.cfg, r.endpoint), r.cfg.burst, n);
    var k := Ask(b, r.now, key, KeyRate(r.cfg, r.endpoint), r.cfg.burst).0;
    AskKeepsSound(b, r.now, key, KeyRate(r.cfg, r.endpoint), r.cfg.burst);
    AskSparesOther(b, r.now, key, KeyRate(r.cfg, r.endpoint), r.cfg.burst, global);
    OpenAsk(k, past, r.now, global, PerEndpointRps(r.cfg, r.endpoint), r.cfg.burst, n);
    GlobalAskSpares(k, r, r.endpoint, r.keyId, GlobalRate(r.cfg, r.endpoint));
  }

  lemma {:induction false} BurstPasses(b: Buckets, rs: seq<Request>, r: Request, past: real)
    requires Sound(b) && r.cfg.burst > 0 && past <= r.now && BothGrant(b, r, past, |rs|)
    requires forall i :: 0 <= i < |rs| ==> rs[i] == r
    ensures Admitted(b, r.endpoint, rs) == |rs|
    decreases rs
  {
    if rs != [] {
      BurstStep(b, r, past, |rs|);
      GateKeepsSound(b, r);
      BurstPasses(Gate(b, r).0, rs[1..], r, past);
    }
  }

  lemma SolventPaused(b: Buckets, name: string, rps: nat, past: real, now: real, burst: nat, n: nat)
    requires Solvent(b, past) && n <= burst && (rps == 0 || Earns(rps, past, now, n))
    ensures Paused(b, name, rps, past, now, burst, n)
  {
  }

  /** Whatever came before: after a pause in which rps, or for reads readRps, earns so many tokens, and
      globalRps, or readGlobalRps, does, that many requests pass at once, up to the burst. A rate of 0
      asks for no pause. */
  lemma PausedBurstPasses(before: seq<Request>, start: real, r: Request, rs: seq<Request>)
    requires Monotone(start, before) && Latest(start, before) <= r.now && 0 < r.cfg.burst && |rs| <= r.cfg.burst
    requires forall i :: 0 <= i < |rs| ==> rs[i] == r
    requires var last, read := Latest(start, before), r.endpoint == Read;
      var rps := if read then r.cfg.readRps else r.cfg.rps; var globalRps := if read then r.cfg.readGlobalRps else r.cfg.globalRps;
      (rps == 0 || Earns(rps, last, r.now, |rs|)) && (globalRps == 0 || Earns(globalRps, last, r.now, |rs|))
    ensures Admitted(After(Empty, before), r.endpoint, rs) == |rs|
  {
    EmptySound();
    TableBounded(Empty, before);
    RequestsSolvent(Empty, before, start);
    var b, last := After(Empty, before), Latest(start, before);
    SolventPaused(b, KeyBucket(r.endpoint, r.keyId), PerKeyRps(r.cfg, r.endpoint), last, r.now, r.cfg.burst, |rs|);
    SolventPaused(b, GlobalBucket(r.endpoint), PerEndpointRps(r.cfg, r.endpoint), last, r.now, r.cfg.burst, |rs|);
    BurstPasses(b, rs, r, last);
  }

  /** From nothing the whole burst passes at once, whatever the rates. */
  lemma FirstBurstPasses(r: Request, rs: seq<Request>)
    requires 0 < r.cfg.burst && |rs| <= r.cfg.burst && forall i :: 0 <= i < |rs| ==> rs[i] == r
    ensures Admitted(Empty, r.endpoint, rs) == |rs|
  {
    EmptySound();
    BurstPasses(Empty, rs, r, r.now);
  }
}
