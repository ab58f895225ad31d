/** Token buckets with a bounded table, and the two-bucket gate in front of every request. Times are
    milliseconds and rates tokens per second, as exact reals. */
module TokenBuckets {
  import opened Permutations

  const MAX_ENTRIES := 4096

  datatype Bucket = Bucket(tokens: real, refillAt: real)

  /** The map and the order in which its keys were inserted. */
  datatype Buckets = Buckets(order: seq<string>, table: map<string, Bucket>)

  const Empty := Buckets([], map[])

  predicate PerKey(name: string) {
    |name| >= 4 && name[..4] == "key:"
  }

  /* ---- one bucket ---- */

  function Smaller(a: real, b: real): real { if a < b then a else b }

  function Refill(b: Bucket, now: real, rate: real, capacity: real): Bucket {
    var elapsed := (now - b.refillAt) / 1000.0;
    if elapsed > 0.0 then Bucket(Smaller(capacity, b.tokens + elapsed * rate), now) else b
  }

  /* ---- the table ---- */

  function OldestPerKey(order: seq<string>): (i: nat)
    ensures i <= |order| && (i < |order| ==> PerKey(order[i])) && (forall j :: 0 <= j < i ==> !PerKey(order[j]))
  {
    if order == [] || PerKey(order[0]) then 0 else 1 + OldestPerKey(order[1..])
  }

  /** A full table gives up its earliest-inserted per-key bucket, if it has one. */
  function Evict(b: Buckets, i: nat): Buckets
    requires i < |b.order|
  {
    Buckets(b.order[..i] + b.order[i + 1..], b.table - {b.order[i]})
  }

  function MakeRoom(b: Buckets): Buckets {
    var i := OldestPerKey(b.order);
    if |b.table| < MAX_ENTRIES || i == |b.order| then b else Evict(b, i)
  }

  function Consume(b: Buckets, now: real, name: string, rate: real, capacity: nat): (Buckets, bool) {
    if name !in b.table then
      var q := MakeRoom(b);
      var tokens := if capacity == 0 then 0.0 else capacity as real - 1.0;
      (Buckets(q.order + [name], q.table[name := Bucket(tokens, now)]), capacity > 0)
    else
      var r := Refill(b.table[name], now, rate, capacity as real);
      if r.tokens >= 1.0 then (b.(table := b.table[name := r.(tokens := r.tokens - 1.0)]), true)
      else (b.(table := b.table[name := r]), false)
  }

  /* ---- the gate ---- */

  datatype Endpoint = Trigger | BatchTrigger | Retry | Cancel | Schedule | Read

  /** A rate of 0 turns its bucket off; a burst of 0 turns the whole limiter off. */
  datatype Config = Config(rps: nat, globalRps: nat, readRps: nat, readGlobalRps: nat, burst: nat)

  /** The configuration is read anew for every request. */
  datatype Request = Request(now: real, endpoint: Endpoint, keyId: string, cfg: Config)

  function Name(e: Endpoint): string {
    match e
    case Trigger => "trigger"
    case BatchTrigger => "batch-trigger"
    case Retry => "retry"
    case Cancel => "cancel"
    case Schedule => "schedule"
    case Read => "read"
  }

  function KeyBucket(e: Endpoint, keyId: string): string {
    "key:" + Name(e) + ":" + keyId
  }

  function GlobalBucket(e: Endpoint): string {
    "global:" + Name(e)
  }

  function KeyRate(cfg: Config, e: Endpoint): nat {
    if e.Read? then cfg.readRps else cfg.rps
  }

  function GlobalRate(cfg: Config, e: Endpoint): nat {
    if e.Read? then cfg.readGlobalRps else cfg.globalRps
  }

  /** A bucket whose rate is 0 is not asked. */
  function Ask(b: Buckets, now: real, name: string, rate: nat, burst: nat): (Buckets, bool) {
    if rate > 0 then Consume(b, now, name, rate as real, burst) else (b, true)
  }

  function Gate(b: Buckets, r: Request): (Buckets, bool) {
    if r.cfg.burst == 0 then (b, true)
    else
      var k := Ask(b, r.now, KeyBucket(r.endpoint, r.keyId), KeyRate(r.cfg, r.endpoint), r.cfg.burst);
      if !k.1 then k else Ask(k.0, r.now, GlobalBucket(r.endpoint), GlobalRate(r.cfg, r.endpoint), r.cfg.burst)
  }

  function After(b: Buckets, rs: seq<Request>): Buckets
    decreases rs
  {
    if rs == [] then b else After(Gate(b, rs[0]).0, rs[1..])
  }

  /** How many requests of one endpoint the gate lets through. */
  function Admitted(b: Buckets, e: Endpoint, rs: seq<Request>): nat
    decreases rs
  {
    if rs == [] then 0
    else (if rs[0].endpoint == e && Gate(b, rs[0]).1 then 1 else 0) + Admitted(Gate(b, rs[0]).0, e, rs[1..])
  }

  predicate Monotone(from: real, rs: seq<Request>)
    decreases rs
  {
    rs == [] || (from <= rs[0].now && Monotone(rs[0].now, rs[1..]))
  }

  /** The time of the last request, or `from`. */
  function Latest(from: real, rs: seq<Request>): real
    decreases rs
  {
    if rs == [] then from else Latest(rs[0].now, rs[1..])
  }

  /* ---- the table stays bounded, and global buckets stay ---- */

  predicate Unique(order: seq<string>) {
    forall i, j :: 0 <= i < j < |order| ==> order[i] != order[j]
  }

  predicate Listed(b: Buckets) {
    && Unique(b.order) && |b.order| == |b.table|
    && (forall name :: name in b.order ==> name in b.table)
    && (forall name :: name in b.table ==> name in b.order)
  }

  lemma WithoutUnique(order: seq<string>, i: nat)
    requires Unique(order) && i < |order|
    ensures Unique(Without(order, i)) && |Without(order, i)| == |order| - 1
    ensures forall name :: name in Without(order, i) <==> name in order && name != order[i]
  {
    var q := Without(order, i);
    assert forall j :: 0 <= j < |q| ==> q[j] == order[if j < i then j else j + 1];
    forall name | name in order && name != order[i] ensures name in q {
      var j :| 0 <= j < |order| && order[j] == name;
      assert q[if j < i then j else j - 1] == name;
    }
  }

  lemma TableSize(m: map<string, Bucket>, name: string, k: Bucket)
    ensures name in m ==> |m - {name}| == |m| - 1 && |m[name := k]| == |m|
    ensures name !in m ==> |m[name := k]| == |m| + 1
  {
    assert |m| == |m.Keys|;
    assert (m - {name}).Keys == m.Keys - {name} && m[name := k].Keys == m.Keys + {name};
    assert |m - {name}| == |(m - {name}).Keys| && |m[name := k]| == |m[name := k].Keys|;
  }

  /** One listed name goes, and everything else stays. */
  lemma EvictionListed(b: Buckets, i: nat)
    requires Listed(b) && i < |b.order|
    ensures var q := Evict(b, i);
      && Listed(q) && |q.table| == |b.table| - 1
      && (forall name :: name in q.table ==> name in b.table && q.table[name] == b.table[name])
      && (forall name :: name in b.table && name != b.order[i] ==> name in q.table)
  {
    var gone := b.order[i];
    WithoutUnique(b.order, i);
    assert gone in b.order;
    TableSize(b.table, gone, b.table[gone]);
    assert b.order[..i] + b.order[i + 1..] == Without(b.order, i);
  }

  lemma MakeRoomListed(b: Buckets)
    requires Listed(b)
    ensures Listed(MakeRoom(b)) && |MakeRoom(b).table| <= |b.table|
  {
    var i := OldestPerKey(b.order);
    if |b.table| >= MAX_ENTRIES && i < |b.order| { EvictionListed(b, i); }
  }

  lemma MakeRoomSpares(b: Buckets, name: string)
    ensures name in MakeRoom(b).table ==> name in b.table && MakeRoom(b).table[name] == b.table[name]
    ensures name in b.table && !PerKey(name) ==> name in MakeRoom(b).table
  {
  }

  predicate NonePerKey(order: seq<string>, n: nat) {
    n <= |order| && forall j :: 0 <= j < n ==> !PerKey(order[j])
  }

  lemma ScanMeets(b: Buckets, i: nat)
    requires Listed(b) && |b.table| >= MAX_ENTRIES && i < |b.order| && NonePerKey(b.order, i) && PerKey(b.order[i])
    ensures MakeRoom(b) == Evict(b, i) && Listed(Evict(b, i))
  {
    assert OldestPerKey(b.order) == i;
    EvictionListed(b, i);
  }

  lemma ScanEnds(b: Buckets)
    requires NonePerKey(b.order, |b.order|)
    ensures MakeRoom(b) == b
  {
  }

  lemma MakeRoomMakes(b: Buckets)
    requires Listed(b) && |b.table| == MAX_ENTRIES && (exists name :: name in b.table && PerKey(name))
    ensures |MakeRoom(b).table| < MAX_ENTRIES
  {
    var i := OldestPerKey(b.order);
    var name :| name in b.table && PerKey(name);
    assert name in b.order;
    assert b.order[i] in b.order;
    TableSize(b.table, b.order[i], b.table[b.order[i]]);
  }

  lemma OpenedListed(b: Buckets, name: string, k: Bucket)
    requires Listed(b) && name !in b.table
    ensures var q := Buckets(b.order + [name], b.table[name := k]); Listed(q) && |q.table| == |b.table| + 1
  {
    TableSize(b.table, name, k);
    assert forall i :: 0 <= i < |b.order| ==> b.order[i] in b.order;
  }

  lemma ConsumeListed(b: Buckets, now: real, name: string, rate: real, capacity: nat)
    requires Listed(b)
    ensures var q := Consume(b, now, name, rate, capacity).0;
      && Listed(q) && name in q.table && |q.table| <= (if name in b.table then |b.table| else |MakeRoom(b).table| + 1)
      && (forall n :: n in q.table ==> n == name || n in b.table)
      && (forall n :: n in b.table && !PerKey(n) ==> n in q.table)
  {
    var q, m := Consume(b, now, name, rate, capacity).0, MakeRoom(b);
    if name !in b.table {
      MakeRoomListed(b);
      MakeRoomSpares(b, name);
      OpenedListed(m, name, q.table[name]);
      assert q == Buckets(m.order + [name], m.table[name := q.table[name]]);
      forall n | n in q.table && n != name ensures n in b.table { MakeRoomSpares(b, n); }
      forall n | n in b.table && !PerKey(n) ensures n in q.table { MakeRoomSpares(b, n); }
    } else {
      ConsumeHeld(b, now, name, rate, capacity);
    }
  }

  lemma ConsumeHeld(b: Buckets, now: real, name: string, rate: real, capacity: nat)
    requires Listed(b) && name in b.table
    ensures var q := Consume(b, now, name, rate, capacity).0;
      Listed(q) && q.order == b.order && q.table.Keys == b.table.Keys && |q.table| == |b.table|
  {
    var q := Consume(b, now, name, rate, capacity).0;
    assert q.table == b.table[name := q.table[name]];
    TableSize(b.table, name, q.table[name]);
  }

  /** Fewer names outside `key:` than the table has room for. */
  ghost predicate FewGlobals(b: Buckets, globals: set<string>) {
    && |globals| < MAX_ENTRIES && |b.table| <= MAX_ENTRIES
    && forall name :: name in b.table && !PerKey(name) ==> name in globals
  }

  lemma SubsetSize(a: set<string>, b: set<string>)
    requires a <= b
    ensures |a| <= |b|
  {
    assert b == a + (b - a);
  }

  lemma FullHasPerKey(b: Buckets, globals: set<string>)
    requires FewGlobals(b, globals) && |b.table| == MAX_ENTRIES
    ensures exists name :: name in b.table && PerKey(name)
  {
    assert |b.table| == |b.table.Keys|;
    if b.table.Keys <= globals {
      SubsetSize(b.table.Keys, globals);
    }
  }

  lemma ConsumeBounded(b: Buckets, now: real, name: string, rate: real, capacity: nat, globals: set<string>)
    requires Listed(b) && FewGlobals(b, globals) && (PerKey(name) || name in globals)
    ensures FewGlobals(Consume(b, now, name, rate, capacity).0, globals)
  {
    MakeRoomListed(b);
    ConsumeListed(b, now, name, rate, capacity);
    if name !in b.table && |b.table| == MAX_ENTRIES {
      FullHasPerKey(b, globals);
      MakeRoomMakes(b);
    }
  }

  function GlobalNames(): set<string> {
    {GlobalBucket(Trigger), GlobalBucket(BatchTrigger), GlobalBucket(Retry), GlobalBucket(Cancel), GlobalBucket(Schedule), GlobalBucket(Read)}
  }

  lemma NamesApart(e: Endpoint, keyId: string)
    ensures PerKey(KeyBucket(e, keyId)) && !PerKey(GlobalBucket(e)) && GlobalBucket(e) in GlobalNames()
    ensures |GlobalNames()| <= 6
  {
    var k := KeyBucket(e, keyId);
    assert k[..4] == "key:" by {
      assert k == "key:" + (Name(e) + ":" + keyId);
    }
    assert GlobalBucket(e)[0] == 'g';
    var rest := {GlobalBucket(BatchTrigger), GlobalBucket(Retry), GlobalBucket(Cancel), GlobalBucket(Schedule), GlobalBucket(Read)};
    assert GlobalNames() == {GlobalBucket(Trigger)} + rest;
  }

  ghost predicate Sound(b: Buckets) {
    Listed(b) && FewGlobals(b, GlobalNames())
  }

  lemma AskKeepsSound(b: Buckets, now: real, name: string, rate: nat, burst: nat)
    requires Sound(b) && (PerKey(name) || name in GlobalNames())
    ensures Sound(Ask(b, now, name, rate, burst).0)
    ensures forall n :: n in b.table && !PerKey(n) ==> n in Ask(b, now, name, rate, burst).0.table
  {
    ConsumeListed(b, now, name, rate as real, burst);
    ConsumeBounded(b, now, name, rate as real, burst, GlobalNames());
  }

  lemma GateKeepsSound(b: Buckets, r: Request)
    requires Sound(b)
    ensures Sound(Gate(b, r).0)
    ensures forall name :: name in b.table && !PerKey(name) ==> name in Gate(b, r).0.table
  {
    NamesApart(r.endpoint, r.keyId);
    var k := Ask(b, r.now, KeyBucket(r.endpoint, r.keyId), KeyRate(r.cfg, r.endpoint), r.cfg.burst).0;
    AskKeepsSound(b, r.now, KeyBucket(r.endpoint, r.keyId), KeyRate(r.cfg, r.endpoint), r.cfg.burst);
    AskKeepsSound(k, r.now, GlobalBucket(r.endpoint), GlobalRate(r.cfg, r.endpoint), r.cfg.burst);
  }

  /** Under any flood of keys, and whatever the configuration becomes, the table never exceeds its
      bound, and a global bucket once made is never given up. */
  lemma {:induction false} TableBounded(b: Buckets, rs: seq<Request>)
    requires Sound(b)
    ensures Sound(After(b, rs)) && |After(b, rs).table| <= 4096
    ensures forall name :: name in b.table && !PerKey(name) ==> name in After(b, rs).table
    decreases rs
  {
    if rs != [] {
      GateKeepsSound(b, rs[0]);
      TableBounded(Gate(b, rs[0]).0, rs[1..]);
    }
  }

  /* ---- the rate bound ---- */

  /** What the rate adds from one instant to a later one. */
  function Earned(rate: real, from: real, to: real): real {
    if to > from then (to - from) / 1000.0 * rate else 0.0
  }

  lemma EarnedAdds(rate: real, a: real, b: real, c: real)
    requires rate >= 0.0 && a <= b <= c
    ensures Earned(rate, a, c) == Earned(rate, a, b) + Earned(rate, b, c)
    ensures Earned(rate, a, b) >= 0.0 && Earned(rate, b, c) >= 0.0
  {
    Times((b - a) / 1000.0, (c - b) / 1000.0, rate);
  }

  lemma Times(x: real, y: real, rate: real)
    requires x >= 0.0 && y >= 0.0 && rate >= 0.0
    ensures (x + y) * rate == x * rate + y * rate && x * rate >= 0.0 && y * rate >= 0.0
  {
  }

  /** What a window that began at `from` may still admit, given `used`: the tokens left and what
      was used never exceed the capacity and what the elapsed time refilled. */
  predicate Budgeted(b: Buckets, name: string, rate: real, capacity: nat, from: real, used: nat) {
    if name !in b.table then used == 0
    else
      var k := b.table[name];
      && k.tokens <= capacity as real
      && used as real + k.tokens <= capacity as real + Earned(rate, from, k.refillAt)
      && k.tokens >= 0.0 && (k.refillAt < from ==> used == 0)
  }

  predicate Filled(b: Buckets, name: string, now: real) {
    name in b.table ==> b.table[name].refillAt <= now
  }

  /** A lower rate earns no more. */
  lemma EarnedLess(lower: real, rate: real, from: real, to: real)
    requires 0.0 <= lower <= rate
    ensures 0.0 <= Earned(lower, from, to) <= Earned(rate, from, to)
  {
    if to > from { Faster((to - from) / 1000.0, lower, rate); }
  }

  lemma Faster(time: real, lower: real, rate: real)
    requires time >= 0.0 && 0.0 <= lower <= rate
    ensures 0.0 <= time * lower <= time * rate
  {
  }

  lemma RefillBudget(k: Bucket, now: real, asks: real, burst: real, rate: real, capacity: real, from: real, used: real)
    requires 0.0 <= asks <= rate && 0.0 <= burst <= capacity
    requires k.refillAt <= now && from <= now && 0.0 <= k.tokens <= capacity
    requires used + k.tokens <= capacity + Earned(rate, from, k.refillAt)
    requires k.refillAt < from ==> used == 0.0
    ensures var r := Refill(k, now, asks, burst);
      && 0.0 <= r.tokens <= capacity && r.refillAt <= now
      && used + r.tokens <= capacity + Earned(rate, from, r.refillAt)
  {
    if now > k.refillAt {
      var gain := Earned(asks, k.refillAt, now);
      EarnedLess(asks, rate, k.refillAt, now);
      assert Refill(k, now, asks, burst) == Bucket(Smaller(burst, k.tokens + gain), now);
      if k.refillAt >= from {
        EarnedAdds(rate, from, k.refillAt, now);
        assert Earned(rate, from, now) >= Earned(rate, from, k.refillAt) + gain;
      } else {
        EarnedAdds(rate, from, from, now);
        assert used == 0.0 && Earned(rate, from, now) >= 0.0;
      }
    }
  }

  /** One call keeps the budget of the bucket it asks, if it asks for no more than that. */
  lemma ConsumeBudget(b: Buckets, now: real, name: string, asks: real, burst: nat, rate: real, capacity: nat, from: real, used: nat)
    requires 0.0 <= asks <= rate && burst <= capacity
    requires from <= now && Filled(b, name, now) && Budgeted(b, name, rate, capacity, from, used)
    ensures var (q, ok) := Consume(b, now, name, asks, burst);
      Filled(q, name, now) && Budgeted(q, name, rate, capacity, from, used + if ok then 1 else 0)
  {
    if name in b.table {
      RefillBudget(b.table[name], now, asks, burst as real, rate, capacity as real, from, used as real);
    } else {
      EarnedAdds(rate, from, from, now);
    }
  }

  /** A call on another bucket leaves this one alone, unless it evicts it. */
  lemma ConsumeOther(b: Buckets, now: real, name: string, rate: real, capacity: nat, other: string)
    requires Listed(b) && other != name
    ensures var q := Consume(b, now, name, rate, capacity).0;
      && (other in q.table <==> other in b.table && (name !in b.table ==> other in MakeRoom(b).table))
      && (other in q.table ==> q.table[other] == b.table[other])
      && (other in b.table && !PerKey(other) ==> other in q.table)
  {
    MakeRoomSpares(b, other);
  }

  ghost predicate Holding(b: Buckets, name: string, rate: real, capacity: nat, from: real, now: real, used: nat) {
    Listed(b) && Filled(b, name, now) && Budgeted(b, name, rate, capacity, from, used)
  }

  /** Asking one bucket, seen from bucket `name`: its own count goes up by what it grants. */
  lemma AskBudget(b: Buckets, now: real, asked: string, asks: nat, burst: nat, name: string, rate: real, capacity: nat, from: real, used: nat)
    requires Holding(b, name, rate, capacity, from, now, used) && from <= now
    requires asked == name ==> 0 < asks && asks as real <= rate && burst <= capacity
    requires name in b.table ==> name in Ask(b, now, asked, asks, burst).0.table
    ensures var (q, ok) := Ask(b, now, asked, asks, burst);
      Holding(q, name, rate, capacity, from, now, if asked == name && ok then used + 1 else used)
  {
    ConsumeListed(b, now, asked, asks as real, burst);
    if asked == name {
      ConsumeBudget(b, now, name, asks as real, burst, rate, capacity, from, used);
    } else {
      ConsumeOther(b, now, asked, asks as real, burst, name);
    }
  }

  lemma LaterHolding(b: Buckets, name: string, rate: real, capacity: nat, from: real, now: real, later: real, used: nat)
    requires Holding(b, name, rate, capacity, from, now, used) && now <= later
    ensures Holding(b, name, rate, capacity, from, later, used)
  {
  }

  /** The request's endpoint is limited, by at most this rate and burst. */
  predicate Limited(r: Request, e: Endpoint, rate: real, burst: nat) {
    r.endpoint == e ==>
      var rps := if e == Read then r.cfg.readGlobalRps else r.cfg.globalRps;
      0 < rps && rps as real <= rate && 0 < r.cfg.burst <= burst
  }

  /** A request that passes the gate has taken a token from each bucket that is on. */
  lemma GateBudget(b: Buckets, r: Request, e: Endpoint, rate: real, burst: nat, from: real, used: nat) returns (more: nat)
    requires Sound(b) && Limited(r, e, rate, burst) && from <= r.now
    requires Holding(b, GlobalBucket(e), rate, burst, from, r.now, used)
    ensures Holding(Gate(b, r).0, GlobalBucket(e), rate, burst, from, r.now, more)
    ensures more >= used + if r.endpoint == e && Gate(b, r).1 then 1 else 0
  {
    more := used;
    if r.cfg.burst > 0 {
      NamesApart(r.endpoint, r.keyId);
      NamesApart(e, r.keyId);
      GlobalNamesDiffer(r.endpoint, e);
      var key, name, global := KeyBucket(r.endpoint, r.keyId), GlobalBucket(e), GlobalBucket(r.endpoint);
      var (k, ok) := Ask(b, r.now, key, KeyRate(r.cfg, r.endpoint), r.cfg.burst);
      AskKeepsSound(b, r.now, key, KeyRate(r.cfg, r.endpoint), r.cfg.burst);
      AskBudget(b, r.now, key, KeyRate(r.cfg, r.endpoint), r.cfg.burst, name, rate, burst, from, used);
      if ok {
        var (q, passes) := Ask(k, r.now, global, GlobalRate(r.cfg, r.endpoint), r.cfg.burst);
        AskKeepsSound(k, r.now, global, GlobalRate(r.cfg, r.endpoint), r.cfg.burst);
        AskBudget(k, r.now, global, GlobalRate(r.cfg, r.endpoint), r.cfg.burst, name, rate, burst, from, used);
        if global == name && passes { more := used + 1; }
      }
    }
  }

  lemma GlobalNamesDiffer(d: Endpoint, e: Endpoint)
    ensures GlobalBucket(d) == GlobalBucket(e) <==> d == e
  {
    assert |GlobalBucket(d)| == 7 + |Name(d)| && |GlobalBucket(e)| == 7 + |Name(e)|;
  }

  lemma AskSparesOther(b: Buckets, now: real, name: string, rate: nat, burst: nat, other: string)
    requires Listed(b) && other != name && !PerKey(other)
    ensures var q := Ask(b, now, name, rate, burst).0;
      (other in q.table <==> other in b.table) && (other in b.table ==> q.table[other] == b.table[other])
  {
    ConsumeOther(b, now, name, rate as real, burst, other);
  }

  /** What a bucket with this many tokens per second says; one whose rate is 0 is off and not asked. */
  function Granted(b: Buckets, now: real, name: string, rps: nat, burst: nat): (Buckets, bool) {
    if rps == 0 then (b, true) else Consume(b, now, name, rps as real, burst)
  }

  /** A request passes exactly when its key's bucket, at rps or readRps, and its endpoint's, at globalRps
      or readGlobalRps, would both grant it a token; one that its key's bucket refuses draws nothing from
      the global bucket. A burst of 0 lets everything through and touches nothing. */
  lemma GateNeedsBoth(b: Buckets, r: Request)
    requires Sound(b)
    ensures r.cfg.burst == 0 ==> Gate(b, r) == (b, true)
    ensures r.cfg.burst > 0 ==>
      var read, name := r.endpoint == Read, GlobalBucket(r.endpoint);
      var key := Granted(b, r.now, KeyBucket(r.endpoint, r.keyId), if read then r.cfg.readRps else r.cfg.rps, r.cfg.burst);
      var global := Granted(b, r.now, name, if read then r.cfg.readGlobalRps else r.cfg.globalRps, r.cfg.burst);
      && (Gate(b, r).1 <==> key.1 && global.1)
      && (!key.1 ==> (name in Gate(b, r).0.table <==> name in b.table)
                     && (name in b.table ==> Gate(b, r).0.table[name] == b.table[name]))
  {
    NamesApart(r.endpoint, r.keyId);
    AskSparesOther(b, r.now, KeyBucket(r.endpoint, r.keyId), KeyRate(r.cfg, r.endpoint), r.cfg.burst, GlobalBucket(r.endpoint));
  }

  lemma {:induction false} WindowBudget(b: Buckets, e: Endpoint, rate: real, burst: nat, rs: seq<Request>, from: real, now: real, used: nat)
    returns (total: nat)
    requires Sound(b) && from <= now && Monotone(now, rs) && (forall i :: 0 <= i < |rs| ==> Limited(rs[i], e, rate, burst))
    requires Holding(b, GlobalBucket(e), rate, burst, from, now, used)
    ensures total >= used + Admitted(b, e, rs)
    ensures Holding(After(b, rs), GlobalBucket(e), rate, burst, from, Latest(now, rs), total)
    ensures from <= now <= Latest(now, rs)
    decreases rs
  {
    if rs == [] {
      total := used;
    } else {
      LaterHolding(b, GlobalBucket(e), rate, burst, from, now, rs[0].now, used);
      var more := GateBudget(b, rs[0], e, rate, burst, from, used);
      GateKeepsSound(b, rs[0]);
      total := WindowBudget(Gate(b, rs[0]).0, e, rate, burst, rs[1..], from, rs[0].now, more);
    }
  }

  /* ---- before the window ---- */

  /** What a bucket holds at any time: at most the largest capacity it was asked with. */
  ghost predicate Level(b: Buckets, name: string, capacity: nat, now: real) {
    Listed(b) && (name in b.table ==> 0.0 <= b.table[name].tokens <= capacity as real && b.table[name].refillAt <= now)
  }

  lemma LevelBegins(b: Buckets, name: string, rate: real, capacity: nat, now: real)
    requires Level(b, name, capacity, now)
    ensures Holding(b, name, rate, capacity, now, now, 0)
  {
  }

  lemma ConsumeLevel(b: Buckets, now: real, asked: string, asks: real, burst: nat, name: string, capacity: nat, past: real)
    requires Level(b, name, capacity, past) && past <= now && (asked == name ==> 0.0 <= asks && burst <= capacity)
    ensures Level(Consume(b, now, asked, asks, burst).0, name, capacity, now)
  {
    ConsumeListed(b, now, asked, asks, burst);
    if asked != name {
      ConsumeOther(b, now, asked, asks, burst, name);
    } else if name in b.table {
      var r := Refill(b.table[name], now, asks, burst as real);
      EarnedLess(asks, asks, b.table[name].refillAt, now);
      assert 0.0 <= r.tokens <= capacity as real && r.refillAt <= now;
    }
  }

  lemma AskLevel(b: Buckets, now: real, asked: string, asks: nat, burst: nat, name: string, capacity: nat, past: real)
    requires Level(b, name, capacity, past) && past <= now && (asked == name ==> burst <= capacity)
    ensures Level(Ask(b, now, asked, asks, burst).0, name, capacity, now)
  {
    ConsumeLevel(b, now, asked, asks as real, burst, name, capacity, past);
  }

  lemma GateLevel(b: Buckets, r: Request, e: Endpoint, burst: nat, past: real)
    requires Level(b, GlobalBucket(e), burst, past) && past <= r.now && (r.endpoint == e ==> r.cfg.burst <= burst)
    ensures Level(Gate(b, r).0, GlobalBucket(e), burst, r.now)
  {
    NamesApart(r.endpoint, r.keyId);
    NamesApart(e, r.keyId);
    GlobalNamesDiffer(r.endpoint, e);
    var key, global, name := KeyBucket(r.endpoint, r.keyId), GlobalBucket(r.endpoint), GlobalBucket(e);
    var k := Ask(b, r.now, key, KeyRate(r.cfg, r.endpoint), r.cfg.burst).0;
    AskLevel(b, r.now, key, KeyRate(r.cfg, r.endpoint), r.cfg.burst, name, burst, past);
    AskLevel(k, r.now, global, GlobalRate(r.cfg, r.endpoint), r.cfg.burst, name, burst, r.now);
  }

  lemma {:induction false} RequestsLevel(b: Buckets, rs: seq<Request>, e: Endpoint, burst: nat, now: real)
    requires Level(b, GlobalBucket(e), burst, now) && Monotone(now, rs)
    requires forall i :: 0 <= i < |rs| && rs[i].endpoint == e ==> rs[i].cfg.burst <= burst
    ensures Level(After(b, rs), GlobalBucket(e), burst, Latest(now, rs)) && now <= Latest(now, rs)
    decreases rs
  {
    if rs != [] {
      GateLevel(b, rs[0], e, burst, now);
      RequestsLevel(Gate(b, rs[0]).0, rs[1..], e, burst, rs[0].now);
    }
  }

  lemma BudgetBounds(b: Buckets, name: string, rate: real, capacity: nat, from: real, now: real, used: nat)
    requires Holding(b, name, rate, capacity, from, now, used) && rate >= 0.0 && from <= now
    ensures used as real <= capacity as real + Earned(rate, from, now)
  {
    EarnedAdds(rate, from, from, now);
    if name in b.table && b.table[name].refillAt > from {
      EarnedAdds(rate, from, b.table[name].refillAt, now);
    }
  }

  lemma EmptySound()
    ensures Sound(Empty)
  {
    NamesApart(Read, "");
  }

  /** Over any window of the process's life, under any flood of keys, and with the configuration
      changing from request to request: while an endpoint is limited by at most a rate and a burst, its
      global bucket lets through at most that burst plus that rate times the length of the window. */
  lemma GlobalWindowBound(e: Endpoint, rate: real, burst: nat, before: seq<Request>, window: seq<Request>, start: real, from: real)
    requires rate >= 0.0 && Monotone(start, before) && Latest(start, before) <= from && Monotone(from, window)
    requires forall i :: 0 <= i < |before| && before[i].endpoint == e ==> before[i].cfg.burst <= burst
    requires forall i :: 0 <= i < |window| ==> Limited(window[i], e, rate, burst)
    ensures Admitted(After(Empty, before), e, window) as real <= burst as real + Earned(rate, from, Latest(from, window))
  {
    EmptySound();
    TableBounded(Empty, before);
    RequestsLevel(Empty, before, e, burst, start);
    var b := After(Empty, before);
    assert Level(b, GlobalBucket(e), burst, from);
    LevelBegins(b, GlobalBucket(e), rate, burst, from);
    var total := WindowBudget(b, e, rate, burst, window, from, from, 0);
    BudgetBounds(After(b, window), GlobalBucket(e), rate, burst, from, Latest(from, window), total);
  }

  /* ---- one bucket over any trace of calls ---- */

  datatype Call = Call(now: real, name: string, rate: real, capacity: nat)

  function CallNext(b: Buckets, c: Call): (Buckets, bool) {
    Consume(b, c.now, c.name, c.rate, c.capacity)
  }

  function AfterCalls(b: Buckets, cs: seq<Call>): Buckets
    decreases cs
  {
    if cs == [] then b else AfterCalls(CallNext(b, cs[0]).0, cs[1..])
  }

  function AdmittedCalls(b: Buckets, name: string, cs: seq<Call>): nat
    decreases cs
  {
    if cs == [] then 0
    else (if cs[0].name == name && CallNext(b, cs[0]).1 then 1 else 0) + AdmittedCalls(CallNext(b, cs[0]).0, name, cs[1..])
  }

  /** A monotone clock from `from` to `to`. */
  predicate Clocked(from: real, cs: seq<Call>, to: real)
    decreases cs
  {
    if cs == [] then from <= to else from <= cs[0].now && Clocked(cs[0].now, cs[1..], to)
  }

  /** No call asks this bucket for more than the rate and the capacity. */
  predicate AtMost(cs: seq<Call>, name: string, rate: real, capacity: nat) {
    forall i :: 0 <= i < |cs| && cs[i].name == name ==> 0.0 <= cs[i].rate <= rate && cs[i].capacity <= capacity
  }

  predicate NeverEvicts(b: Buckets, name: string, cs: seq<Call>)
    decreases cs
  {
    cs == [] || (
      && (name in b.table ==> name in CallNext(b, cs[0]).0.table)
      && NeverEvicts(CallNext(b, cs[0]).0, name, cs[1..]))
  }

  lemma CallBudget(b: Buckets, c: Call, name: string, rate: real, capacity: nat, from: real, used: nat)
    requires from <= c.now && Holding(b, name, rate, capacity, from, c.now, used) && AtMost([c], name, rate, capacity)
    requires name in b.table ==> name in CallNext(b, c).0.table
    ensures Holding(CallNext(b, c).0, name, rate, capacity, from, c.now, if c.name == name && CallNext(b, c).1 then used + 1 else used)
  {
    ConsumeListed(b, c.now, c.name, c.rate, c.capacity);
    if c.name == name {
      assert [c][0].name == name;
      ConsumeBudget(b, c.now, name, c.rate, c.capacity, rate, capacity, from, used);
    } else {
      ConsumeOther(b, c.now, c.name, c.rate, c.capacity, name);
    }
  }

  lemma {:induction false} CallsBudget(b: Buckets, cs: seq<Call>, name: string, rate: real, capacity: nat, from: real, now: real, to: real, used: nat)
    requires from <= now && Holding(b, name, rate, capacity, from, now, used)
    requires Clocked(now, cs, to) && AtMost(cs, name, rate, capacity) && NeverEvicts(b, name, cs)
    ensures Holding(AfterCalls(b, cs), name, rate, capacity, from, to, used + AdmittedCalls(b, name, cs)) && now <= to
    decreases cs
  {
    if cs == [] {
      LaterHolding(b, name, rate, capacity, from, now, to, used);
    } else {
      var (q, ok) := CallNext(b, cs[0]);
      var more := if cs[0].name == name && ok then used + 1 else used;
      LaterHolding(b, name, rate, capacity, from, now, cs[0].now, used);
      CallBudget(b, cs[0], name, rate, capacity, from, used);
      CallsBudget(q, cs[1..], name, rate, capacity, from, cs[0].now, to, more);
    }
  }

  lemma {:induction false} CallsLevel(b: Buckets, cs: seq<Call>, name: string, rate: real, capacity: nat, now: real, to: real)
    requires Level(b, name, capacity, now) && Clocked(now, cs, to) && AtMost(cs, name, rate, capacity)
    ensures Level(AfterCalls(b, cs), name, capacity, to)
    decreases cs
  {
    if cs != [] {
      ConsumeLevel(b, cs[0].now, cs[0].name, cs[0].rate, cs[0].capacity, name, capacity, now);
      CallsLevel(CallNext(b, cs[0]).0, cs[1..], name, rate, capacity, cs[0].now, to);
    }
  }

  /** Two stretches of calls: the history of the process, and a window after it. */
  datatype Trial = Trial(before: seq<Call>, window: seq<Call>, start: real, from: real, to: real)

  predicate Fair(t: Trial, name: string, rate: real, capacity: nat) {
    && Clocked(t.start, t.before, t.from) && Clocked(t.from, t.window, t.to)
    && AtMost(t.before, name, rate, capacity) && AtMost(t.window, name, rate, capacity)
  }

  predicate WithinBound(t: Trial, name: string, rate: real, capacity: nat) {
    AdmittedCalls(AfterCalls(Empty, t.before), name, t.window) as real <= capacity as real + Earned(rate, t.from, t.to)
  }

  /** With a monotone clock, and asked for no more than a rate and a capacity, a bucket that is not
      evicted in the window admits at most that capacity plus that rate times the length of the window. */
  lemma BucketWindowBound(t: Trial, name: string, rate: real, capacity: nat)
    requires rate >= 0.0 && Fair(t, name, rate, capacity) && NeverEvicts(AfterCalls(Empty, t.before), name, t.window)
    ensures WithinBound(t, name, rate, capacity)
  {
    CallsLevel(Empty, t.before, name, rate, capacity, t.start, t.from);
    var b := AfterCalls(Empty, t.before);
    LevelBegins(b, name, rate, capacity, t.from);
    CallsBudget(b, t.window, name, rate, capacity, t.from, t.from, t.to, 0);
    BudgetBounds(AfterCalls(b, t.window), name, rate, capacity, t.from, t.to, AdmittedCalls(b, name, t.window));
  }

  /* ---- what eviction costs ---- */

  lemma {:induction false} GlobalNeverEvicted(b: Buckets, name: string, cs: seq<Call>)
    requires Listed(b) && !PerKey(name)
    ensures NeverEvicts(b, name, cs)
    decreases cs
  {
    if cs != [] {
      ConsumeListed(b, cs[0].now, cs[0].name, cs[0].rate, cs[0].capacity);
      GlobalNeverEvicted(CallNext(b, cs[0]).0, name, cs[1..]);
    }
  }

  lemma {:induction false} CallsListed(b: Buckets, cs: seq<Call>)
    requires Listed(b)
    ensures Listed(AfterCalls(b, cs))
    decreases cs
  {
    if cs != [] {
      ConsumeListed(b, cs[0].now, cs[0].name, cs[0].rate, cs[0].capacity);
      CallsListed(CallNext(b, cs[0]).0, cs[1..]);
    }
  }

  lemma {:induction false} CallsConcat(b: Buckets, name: string, cs: seq<Call>, ds: seq<Call>)
    ensures AfterCalls(b, cs + ds) == AfterCalls(AfterCalls(b, cs), ds)
    ensures AdmittedCalls(b, name, cs + ds) == AdmittedCalls(b, name, cs) + AdmittedCalls(AfterCalls(b, cs), name, ds)
    decreases cs
  {
    if cs == [] {
      assert cs + ds == ds;
    } else {
      assert (cs + ds)[0] == cs[0] && (cs + ds)[1..] == cs[1..] + ds;
      CallsConcat(CallNext(b, cs[0]).0, name, cs[1..], ds);
    }
  }

  lemma {:induction false} AllAtOnce(cs: seq<Call>)
    requires forall i :: 0 <= i < |cs| ==> cs[i].now == 0.0
    ensures Clocked(0.0, cs, 0.0)
  {
    if cs != [] { AllAtOnce(cs[1..]); }
  }

  function Repeat(c: Call, n: nat): (cs: seq<Call>)
    ensures |cs| == n && forall i :: 0 <= i < n ==> cs[i] == c
  {
    if n == 0 then [] else [c] + Repeat(c, n - 1)
  }

  /** Names of other keys, told apart by their length. */
  function Stranger(name: string, i: nat): string {
    "key:" + seq(|name| + i, _ => 'x')
  }

  function Crowd(name: string, n: nat): (cs: seq<Call>)
    ensures |cs| == n && forall i :: 0 <= i < n ==> cs[i].now == 0.0 && cs[i].name != name
  {
    if n == 0 then [] else Crowd(name, n - 1) + [Call(0.0, Stranger(name, n - 1), 0.0, 1)]
  }

  /** A bucket asked over and over stays the only one. */
  lemma {:induction false} AloneStays(b: Buckets, c: Call, n: nat)
    requires Listed(b) && b.order == [c.name]
    ensures Listed(AfterCalls(b, Repeat(c, n))) && AfterCalls(b, Repeat(c, n)).order == [c.name]
    decreases n
  {
    if n > 0 {
      assert c.name in b.order;
      ConsumeHeld(b, c.now, c.name, c.rate, c.capacity);
      AloneStays(CallNext(b, c).0, c, n - 1);
    }
  }

  /** The table holds this name first, and otherwise names shorter than the next stranger's. */
  predicate Crowded(b: Buckets, name: string, n: nat) {
    && Listed(b) && |b.order| == n + 1 && b.order[0] == name
    && (forall k :: k in b.order ==> k == name || |k| < 4 + |name| + n)
  }

  lemma StrangerJoins(b: Buckets, name: string, n: nat)
    requires Crowded(b, name, n) && n + 1 < MAX_ENTRIES
    ensures var c := Call(0.0, Stranger(name, n), 0.0, 1);
      Crowded(AfterCalls(b, [c]), name, n + 1) && AdmittedCalls(b, name, [c]) == 0
  {
    var c := Call(0.0, Stranger(name, n), 0.0, 1);
    assert |c.name| == 4 + |name| + n && c.name !in b.order;
    ConsumeListed(b, c.now, c.name, c.rate, c.capacity);
    assert [c][1..] == [] && AfterCalls(b, [c]) == CallNext(b, c).0;
    assert CallNext(b, c).0.order == b.order + [c.name];
  }

  lemma CrowdGrows(b: Buckets, name: string, n: nat)
    requires n + 1 < MAX_ENTRIES
    requires Crowded(AfterCalls(b, Crowd(name, n)), name, n) && AdmittedCalls(b, name, Crowd(name, n)) == 0
    ensures Crowded(AfterCalls(b, Crowd(name, n + 1)), name, n + 1) && AdmittedCalls(b, name, Crowd(name, n + 1)) == 0
  {
    var last := [Call(0.0, Stranger(name, n), 0.0, 1)];
    StrangerJoins(AfterCalls(b, Crowd(name, n)), name, n);
    CallsConcat(b, name, Crowd(name, n), last);
    assert Crowd(name, n + 1) == Crowd(name, n) + last;
  }

  /** A crowd of strangers fills the table behind the first bucket. */
  lemma {:induction false} CrowdFills(b: Buckets, name: string, n: nat)
    requires Listed(b) && b.order == [name] && n < MAX_ENTRIES
    ensures Crowded(AfterCalls(b, Crowd(name, n)), name, n) && AdmittedCalls(b, name, Crowd(name, n)) == 0
    decreases n
  {
    if n == 0 {
      assert Crowd(name, 0) == [] && AfterCalls(b, []) == b;
    } else {
      CrowdFills(b, name, n - 1);
      CrowdGrows(b, name, n - 1);
    }
  }

  lemma EvictsFirst(b: Buckets, name: string, c: Call)
    requires Listed(b) && |b.order| == MAX_ENTRIES && b.order[0] == name && PerKey(name) && c.name !in b.order
    ensures name !in CallNext(b, c).0.table && c.name != name
  {
    assert OldestPerKey(b.order) == 0;
    assert name in b.order;
  }

  lemma LastOfTwo(b: Buckets, name: string, c: Call, again: Call)
    requires c.name != name && again.name == name && name !in CallNext(b, c).0.table && again.capacity > 0
    ensures AdmittedCalls(b, name, [c, again]) == 1
  {
    var q := CallNext(b, c).0;
    assert [c, again][1..] == [again] && [again][1..] == [];
    assert CallNext(q, again).1;
    assert AdmittedCalls(q, name, [again]) == 1 + AdmittedCalls(CallNext(q, again).0, name, []);
  }

  /** One stranger more, and the oldest key is a stranger itself. */
  lemma LastStranger(b: Buckets, name: string, rate: real, capacity: nat)
    requires Crowded(b, name, MAX_ENTRIES - 1) && PerKey(name) && capacity > 0
    ensures var c, again := Call(0.0, Stranger(name, MAX_ENTRIES - 1), 0.0, 1), Call(0.0, name, rate, capacity);
      AdmittedCalls(b, name, [c, again]) == 1
  {
    var c, again := Call(0.0, Stranger(name, MAX_ENTRIES - 1), 0.0, 1), Call(0.0, name, rate, capacity);
    assert |c.name| == 4 + |name| + MAX_ENTRIES - 1 && c.name !in b.order;
    EvictsFirst(b, name, c);
    LastOfTwo(b, name, c, again);
  }

  /** From nothing, all at one instant: a key takes its whole capacity, as many strangers as the
      table has room for come by, and the key is granted one token more. */
  function Flood(name: string, rate: real, capacity: nat): Trial
    requires capacity > 0
  {
    var again := Call(0.0, name, rate, capacity);
    var last := Call(0.0, Stranger(name, MAX_ENTRIES - 1), 0.0, 1);
    Trial([], Repeat(again, capacity) + Crowd(name, MAX_ENTRIES - 1) + [last, again], 0.0, 0.0, 0.0)
  }

  lemma FloodIsFair(name: string, rate: real, capacity: nat)
    requires rate >= 0.0 && capacity > 0
    ensures Fair(Flood(name, rate, capacity), name, rate, capacity)
  {
    AllAtOnce(Flood(name, rate, capacity).window);
    assert |Stranger(name, MAX_ENTRIES - 1)| > |name|;
  }

  /** In that history the key is admitted once more than the bound allows. */
  lemma EvictionRefills(name: string, rate: real, capacity: nat)
    requires rate >= 0.0 && capacity > 0 && PerKey(name)
    ensures AdmittedCalls(Empty, name, Flood(name, rate, capacity).window) == capacity + 1
  {
    var again := Call(0.0, name, rate, capacity);
    var burst, crowd := Repeat(again, capacity), Crowd(name, MAX_ENTRIES - 1);
    var last := [Call(0.0, Stranger(name, MAX_ENTRIES - 1), 0.0, 1), again];
    AllAtOnce(burst);
    RestedBucketAdmitsBurst(Empty, burst, name, rate, capacity, 0.0, 0.0);
    var first := CallNext(Empty, again).0;
    ConsumeListed(Empty, 0.0, name, rate, capacity);
    assert first.order == [name];
    AloneStays(first, again, capacity - 1);
    assert AfterCalls(Empty, burst) == AfterCalls(first, Repeat(again, capacity - 1));
    var b := AfterCalls(Empty, burst);
    CrowdFills(b, name, MAX_ENTRIES - 1);
    LastStranger(AfterCalls(b, crowd), name, rate, capacity);
    CallsConcat(Empty, name, burst + crowd, last);
    CallsConcat(Empty, name, burst, crowd);
  }

  /** The bound holds in every history exactly for the buckets that are never evicted: those not
      named `key:`. */
  lemma BoundHoldsExactly(name: string, rate: real, capacity: nat)
    requires rate >= 0.0 && capacity > 0
    ensures (forall t :: Fair(t, name, rate, capacity) ==> WithinBound(t, name, rate, capacity)) <==> !PerKey(name)
  {
    if PerKey(name) {
      FloodIsFair(name, rate, capacity);
      EvictionRefills(name, rate, capacity);
      assert !WithinBound(Flood(name, rate, capacity), name, rate, capacity);
    } else {
      forall t | Fair(t, name, rate, capacity) ensures WithinBound(t, name, rate, capacity) {
        CallsListed(Empty, t.before);
        GlobalNeverEvicted(AfterCalls(Empty, t.before), name, t.window);
        BucketWindowBound(t, name, rate, capacity);
      }
    }
  }

  /* ---- what a bucket does grant ---- */

  /** At least `n` tokens would be there at `now`. */
  predicate Offers(b: Buckets, now: real, name: string, rate: real, capacity: nat, n: nat) {
    n <= capacity && (name in b.table ==> Refill(b.table[name], now, rate, capacity as real).tokens >= n as real)
  }

  lemma OfferedIsTaken(b: Buckets, now: real, name: string, rate: real, capacity: nat, n: nat, later: real)
    requires n > 0 && rate >= 0.0 && now <= later && Offers(b, now, name, rate, capacity, n) && Filled(b, name, now)
    ensures var (q, ok) := Consume(b, now, name, rate, capacity);
      ok && Filled(q, name, later) && Offers(q, later, name, rate, capacity, n - 1)
  {
    var k := Consume(b, now, name, rate, capacity).0.table[name];
    assert k.tokens >= n as real - 1.0;
    EarnedAdds(rate, k.refillAt, k.refillAt, later);
  }

  /** A bucket never used, or rested until it is full again, admits its whole capacity in a row,
      however fast the calls come. */
  lemma {:induction false} RestedBucketAdmitsBurst(b: Buckets, cs: seq<Call>, name: string, rate: real, capacity: nat, now: real, to: real)
    requires rate >= 0.0 && Filled(b, name, now) && Offers(b, now, name, rate, capacity, |cs|)
    requires Clocked(now, cs, to)
    requires forall i :: 0 <= i < |cs| ==> cs[i].name == name && cs[i].rate == rate && cs[i].capacity == capacity
    ensures AdmittedCalls(b, name, cs) == |cs|
    decreases cs
  {
    if cs != [] {
      LaterOffers(b, now, name, rate, capacity, |cs|, cs[0].now);
      OfferedIsTaken(b, cs[0].now, name, rate, capacity, |cs|, cs[0].now);
      RestedBucketAdmitsBurst(CallNext(b, cs[0]).0, cs[1..], name, rate, capacity, cs[0].now, to);
    }
  }

  lemma LaterOffers(b: Buckets, now: real, name: string, rate: real, capacity: nat, n: nat, later: real)
    requires rate >= 0.0 && now <= later && Offers(b, now, name, rate, capacity, n) && Filled(b, name, now)
    ensures Offers(b, later, name, rate, capacity, n)
  {
    if name in b.table {
      EarnedAdds(rate, b.table[name].refillAt, now, later);
    }
  }

  /* ---- the object ---- */

  class Limiter {
    var order: seq<string>
    var buckets: map<string, Bucket>

    ghost function View(): Buckets
      reads this
    {
      Buckets(order, buckets)
    }

    ghost predicate Valid()
      reads this
    {
      Listed(View())
    }

    constructor ()
      ensures Valid() && View() == Empty
    {
      order, buckets := [], map[];
    }

    /** The scan that evicts: the first per-key name in insertion order goes. */
    method EvictOldest()
      requires Valid() && |buckets| >= MAX_ENTRIES
      modifies this
      ensures Valid() && View() == MakeRoom(old(View()))
    {
      ghost var was := View();
      for i := 0 to |order|
        invariant View() == was && NonePerKey(was.order, i)
      {
        if PerKey(order[i]) {
          ScanMeets(was, i);
          buckets := buckets - {order[i]};
          order := order[..i] + order[i + 1..];
          assert View() == Evict(was, i);
          return;
        }
      }
      ScanEnds(was);
    }

    method Take(now: real, name: string, rate: real, capacity: nat) returns (taken: bool)
      requires Valid()
      modifies this
      ensures Valid() && (View(), taken) == Consume(old(View()), now, name, rate, capacity)
    {
      if name !in buckets {
        taken := Open(now, name, rate, capacity);
      } else {
        taken := Draw(now, name, rate, capacity);
      }
    }

    /** A fresh bucket: the first request takes the first token. */
    method Open(now: real, name: string, rate: real, capacity: nat) returns (taken: bool)
      requires Valid() && name !in buckets
      modifies this
      ensures Valid() && (View(), taken) == Consume(old(View()), now, name, rate, capacity)
    {
      ConsumeListed(View(), now, name, rate, capacity);
      if |buckets| >= MAX_ENTRIES { EvictOldest(); }
      order := order + [name];
      buckets := buckets[name := Bucket(if capacity == 0 then 0.0 else capacity as real - 1.0, now)];
      taken := capacity > 0;
    }

    method Draw(now: real, name: string, rate: real, capacity: nat) returns (taken: bool)
      requires Valid() && name in buckets
      modifies `buckets
      ensures Valid() && (View(), taken) == Consume(old(View()), now, name, rate, capacity)
    {
      ConsumeHeld(View(), now, name, rate, capacity);
      var bucket := Refilled(buckets[name], now, rate, capacity as real);
      taken := bucket.tokens >= 1.0;
      if taken { bucket := bucket.(tokens := bucket.tokens - 1.0); }
      buckets := buckets[name := bucket];
    }

    static method Refilled(bucket: Bucket, now: real, rate: real, capacity: real) returns (r: Bucket)
      ensures r == Refill(bucket, now, rate, capacity)
    {
      r := bucket;
      var elapsed := (now - bucket.refillAt) / 1000.0;
      if elapsed > 0.0 {
        r := Bucket(Smaller(capacity, bucket.tokens + elapsed * rate), now);
      }
    }
  }
}
