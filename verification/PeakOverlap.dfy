/** The sweep-line counter that judges a concurrency cap: sort the ends and starts, walk them, keep
    the highest running count. It is the largest number of half-open spans alive at any instant. */
module PeakOverlap {
  import opened Permutations

  datatype Span = Span(from: real, to: real)
  datatype Event = Event(at: real, delta: int)

  predicate Ordered(spans: seq<Span>) {
    forall i :: 0 <= i < |spans| ==> spans[i].from <= spans[i].to
  }

  /** How many spans contain the instant; a span does not contain its own end. */
  function Alive(spans: seq<Span>, t: real): nat {
    if spans == [] then 0
    else (if spans[0].from <= t < spans[0].to then 1 else 0) + Alive(spans[1..], t)
  }

  function Events(spans: seq<Span>): seq<Event> {
    if spans == [] then [] else [Event(spans[0].from, 1), Event(spans[0].to, -1)] + Events(spans[1..])
  }

  /** Ends come before starts at an equal instant. */
  predicate Before(a: Event, b: Event) {
    a.at < b.at || (a.at == b.at && a.delta <= b.delta)
  }

  predicate Sorted(s: seq<Event>) {
    forall i, j :: 0 <= i < j < |s| ==> Before(s[i], s[j])
  }

  /* ---- counting ---- */

  /** The events up to an instant, in whatever order they stand. */
  function Balance(s: seq<Event>, t: real): int {
    if s == [] then 0 else (if s[0].at <= t then s[0].delta else 0) + Balance(s[1..], t)
  }

  function Sum(s: seq<Event>): int {
    if s == [] then 0 else Sum(s[..|s| - 1]) + s[|s| - 1].delta
  }

  lemma {:induction false} BalanceIsAlive(spans: seq<Span>, t: real)
    requires Ordered(spans)
    ensures Balance(Events(spans), t) == Alive(spans, t)
  {
    if spans != [] {
      BalanceIsAlive(spans[1..], t);
      var rest := Events(spans[1..]);
      assert Events(spans)[1..] == [Event(spans[0].to, -1)] + rest && Events(spans)[1..][1..] == rest;
    }
  }

  lemma {:induction false} BalanceConcat(a: seq<Event>, b: seq<Event>, t: real)
    ensures Balance(a + b, t) == Balance(a, t) + Balance(b, t)
  {
    if a == [] {
      assert a + b == b;
    } else {
      assert (a + b)[1..] == a[1..] + b;
      BalanceConcat(a[1..], b, t);
    }
  }

  lemma BalanceTakeOut(b: seq<Event>, i: nat, t: real)
    requires i < |b|
    ensures Balance(b, t) == Balance([b[i]], t) + Balance(Without(b, i), t)
  {
    assert b == b[..i] + ([b[i]] + b[i + 1..]);
    BalanceConcat(b[..i], [b[i]] + b[i + 1..], t);
    BalanceConcat([b[i]], b[i + 1..], t);
    BalanceConcat(b[..i], b[i + 1..], t);
  }

  lemma {:induction false} BalancePermuted(a: seq<Event>, b: seq<Event>, t: real)
    requires multiset(a) == multiset(b)
    ensures Balance(a, t) == Balance(b, t)
    decreases |a|
  {
    SameLength(a, b);
    if a != [] {
      var i := Partner(a, 0, b);
      BalancePermuted(Without(a, 0), Without(b, i), t);
      BalanceTakeOut(a, 0, t);
      BalanceTakeOut(b, i, t);
    }
  }

  /** In a sorted list the balance at an instant is the sum of the front that lies up to it. */
  lemma {:induction false} FrontSum(s: seq<Event>, k: nat, t: real)
    requires k <= |s| && (forall i :: 0 <= i < k ==> s[i].at <= t) && (forall i :: k <= i < |s| ==> s[i].at > t)
    ensures Balance(s, t) == Sum(s[..k])
    decreases |s|
  {
    if s != [] {
      var n := |s| - 1;
      assert s == s[..n] + [s[n]];
      BalanceConcat(s[..n], [s[n]], t);
      if k == |s| {
        FrontSum(s[..n], n, t);
        assert s[..k] == s && s[..n][..n] == s[..n];
      } else {
        FrontSum(s[..n], k, t);
        assert s[..n][..k] == s[..k];
      }
    }
  }

  lemma {:induction false} FrontUpTo(s: seq<Event>, t: real) returns (k: nat)
    requires Sorted(s)
    ensures k <= |s| && (forall i :: 0 <= i < k ==> s[i].at <= t) && (forall i :: k <= i < |s| ==> s[i].at > t)
  {
    k := |s|;
    while k > 0 && s[k - 1].at > t
      invariant k <= |s| && forall i :: k <= i < |s| ==> s[i].at > t
    {
      k := k - 1;
    }
  }

  /** A front that ends in a start is no larger than the front through its whole instant. */
  lemma {:induction false} StartsRise(s: seq<Event>, k: nat, m: nat)
    requires Sorted(s) && 0 < k <= m <= |s| && s[k - 1].delta == 1 && s[m - 1].at == s[k - 1].at
    requires forall i :: 0 <= i < |s| ==> s[i].delta == 1 || s[i].delta == -1
    ensures Sum(s[..k]) <= Sum(s[..m])
    decreases m
  {
    if k < m {
      assert Before(s[k - 1], s[m - 1]);
      if m - 1 > k { assert Before(s[k - 1], s[m - 2]) && Before(s[m - 2], s[m - 1]); }
      StartsRise(s, k, m - 1);
      assert s[..m][..m - 1] == s[..m - 1];
    }
  }

  predicate UnitDeltas(s: seq<Event>) {
    forall i :: 0 <= i < |s| ==> s[i].delta == 1 || s[i].delta == -1
  }

  /** The largest front sum of a sorted list is the balance at some instant. */
  lemma {:induction false} PeakIsReached(s: seq<Event>, k: nat, peak: int) returns (t: real)
    requires Sorted(s) && UnitDeltas(s) && k <= |s| && Sum(s[..k]) == peak
    requires forall j :: 0 <= j <= |s| ==> Sum(s[..j]) <= peak
    ensures Balance(s, t) == peak
    decreases k
  {
    if k == 0 {
      t := if s == [] then 0.0 else s[0].at - 1.0;
      forall i | 0 <= i < |s| ensures s[i].at > t {
        if i > 0 { assert Before(s[0], s[i]); }
      }
      FrontSum(s, 0, t);
    } else {
      assert s[..k][..k - 1] == s[..k - 1];
      assert s[k - 1].delta == 1;
      t := s[k - 1].at;
      var m := FrontUpTo(s, t);
      assert k <= m;
      assert Before(s[k - 1], s[m - 1]) || k == m;
      StartsRise(s, k, m);
      FrontSum(s, m, t);
    }
  }

  lemma {:induction false} EventsUnit(spans: seq<Span>)
    ensures UnitDeltas(Events(spans))
  {
    if spans != [] { EventsUnit(spans[1..]); }
  }

  lemma UnitPermuted(a: seq<Event>, b: seq<Event>)
    requires multiset(a) == multiset(b) && UnitDeltas(a)
    ensures UnitDeltas(b)
  {
    forall i | 0 <= i < |b| ensures b[i].delta == 1 || b[i].delta == -1 {
      assert b[i] in multiset(b);
      assert b[i] in a;
    }
  }

  /* ---- the program ---- */

  method SortEvents(a: array<Event>)
    modifies a
    ensures Sorted(a[..]) && multiset(a[..]) == multiset(old(a[..]))
  {
    var n := 0;
    while n < a.Length
      invariant 0 <= n <= a.Length && Sorted(a[..n]) && multiset(a[..]) == multiset(old(a[..]))
    {
      Sink(a, n);
      n := n + 1;
    }
    assert a[..a.Length] == a[..];
  }

  /** All but the event at `i` stand in order in the front. */
  predicate Sinking(s: seq<Event>, i: nat, n: nat) {
    i <= n < |s| && forall j, k :: 0 <= j < k <= n && k != i ==> Before(s[j], s[k])
  }

  method Swap(a: array<Event>, i: nat)
    requires 0 < i < a.Length
    modifies a
    ensures a[..] == old(a[..])[i - 1 := old(a[i])][i := old(a[i - 1])]
    ensures multiset(a[..]) == multiset(old(a[..]))
  {
    a[i - 1], a[i] := a[i], a[i - 1];
  }

  /** Sinks the event at `n` to its place in the sorted front. */
  method Sink(a: array<Event>, n: nat)
    requires n < a.Length && Sorted(a[..n])
    modifies a
    ensures Sorted(a[..n + 1]) && multiset(a[..]) == multiset(old(a[..]))
  {
    var i: nat := n;
    assert forall j :: 0 <= j < n ==> a[..n][j] == a[..][j];
    while i > 0 && !Before(a[i - 1], a[i])
      invariant Sinking(a[..], i, n) && multiset(a[..]) == multiset(old(a[..]))
    {
      Swap(a, i);
      i := i - 1;
    }
    assert a[..][..n + 1] == a[..n + 1];
  }

  /** No instant has more spans alive than the peak, and some instant has that many. */
  method PeakOf(spans: seq<Span>) returns (peak: int)
    requires Ordered(spans)
    ensures forall t :: Alive(spans, t) <= peak
    ensures exists t :: Alive(spans, t) == peak
  {
    var s := Events(spans);
    var events := new Event[|s|](i requires 0 <= i < |s| => s[i]);
    assert events[..] == s;
    SortEvents(events);
    ghost var sorted := events[..];
    EventsUnit(spans);
    UnitPermuted(s, sorted);
    var live := 0;
    peak := 0;
    ghost var best := 0;
    for i := 0 to events.Length
      invariant events[..] == sorted && live == Sum(sorted[..i]) && best <= i && peak == Sum(sorted[..best])
      invariant forall k :: 0 <= k <= i ==> Sum(sorted[..k]) <= peak
    {
      assert sorted[..i + 1][..i] == sorted[..i];
      live := live + events[i].delta;
      if live > peak { peak, best := live, i + 1; }
    }
    SweepIsPeak(spans, sorted, best, peak);
  }

  lemma SweepIsPeak(spans: seq<Span>, sorted: seq<Event>, best: nat, peak: int)
    requires Ordered(spans) && Sorted(sorted) && UnitDeltas(sorted) && multiset(sorted) == multiset(Events(spans))
    requires best <= |sorted| && Sum(sorted[..best]) == peak
    requires forall k :: 0 <= k <= |sorted| ==> Sum(sorted[..k]) <= peak
    ensures forall t :: Alive(spans, t) <= peak
    ensures exists t :: Alive(spans, t) == peak
  {
    forall t ensures Alive(spans, t) <= peak {
      BalanceIsAlive(spans, t);
      BalancePermuted(sorted, Events(spans), t);
      var k := FrontUpTo(sorted, t);
      FrontSum(sorted, k, t);
    }
    var t := PeakIsReached(sorted, best, peak);
    BalanceIsAlive(spans, t);
    BalancePermuted(sorted, Events(spans), t);
  }
}
