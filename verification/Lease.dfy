/** Lease survival: whether renewals, sent one at a time on a timer chain, reach the database before
    a lease runs out. Times are real milliseconds; a heartbeat tick is sent, commits and settles. */
module Lease {
  const MAX_TIMER_MS: int := 2147483647
  const MIN_HEARTBEAT_MS: int := 500
  const MIN_LEASE_MS: int := 3 * MIN_HEARTBEAT_MS
  const MAX_LEASE_MS: int := 3 * MAX_TIMER_MS + 2

  function Heartbeat(lease: int): int {
    if lease / 3 < MIN_HEARTBEAT_MS then MIN_HEARTBEAT_MS else lease / 3
  }

  predicate Legal(lease: int) {
    MIN_LEASE_MS <= lease <= MAX_LEASE_MS
  }

  /** A lease is legal from 1500 to 6442450943 ms; the heartbeat comes every third of it, rounded down, and
      never more often than every 500 ms. So the legal leases are exactly those whose interval leaves
      two more intervals of lease and fits one timer. */
  lemma LegalExactly(lease: int)
    ensures Legal(lease) <==> 1500 <= lease <= 6442450943
    ensures Legal(lease) <==> 3 * Heartbeat(lease) <= lease && Heartbeat(lease) <= 2147483647
    ensures Legal(lease) ==> 500 <= Heartbeat(lease) && 3 * Heartbeat(lease) <= lease < 3 * Heartbeat(lease) + 3
    ensures lease < 1500 ==> Heartbeat(lease) == 500
  {
  }

  datatype Beat = Beat(sent: real, committed: real, settled: real)

  /** The chain from `armed`, when its first timer was set: a timer waits the interval and runs at
      most `late` after it; a tick settles within `trip` of being sent, and the next timer is set
      then. The chain is on schedule at `now` when nothing is overdue. */
  datatype Pace = Pace(interval: real, late: real, trip: real)

  predicate OnPace(p: Pace, armed: real, b: Beat) {
    armed + p.interval <= b.sent <= armed + p.interval + p.late && b.sent <= b.committed <= b.settled <= b.sent + p.trip
  }

  predicate Chain(p: Pace, armed: real, beats: seq<Beat>, now: real)
    decreases beats
  {
    if beats == [] then now <= armed + p.interval + p.late + p.trip
    else OnPace(p, armed, beats[0]) && Chain(p, beats[0].settled, beats[1..], now)
  }

  /** A tick renews the runs that were in flight when it was sent. Its write holds a lease from its
      commit on. */
  predicate Holds(lease: real, write: real, now: real) {
    write <= now < write + lease
  }

  predicate Renewed(lease: real, joined: real, beats: seq<Beat>, now: real)
    decreases beats
  {
    beats != [] && ((beats[0].sent > joined && Holds(lease, beats[0].committed, now)) || Renewed(lease, joined, beats[1..], now))
  }

  predicate Alive(lease: real, claimed: real, joined: real, beats: seq<Beat>, now: real) {
    Holds(lease, claimed, now) || Renewed(lease, joined, beats, now)
  }

  /** What survival takes: the claim's round trip, a tick that just missed the run, the interval and
      the next tick all fit the lease. */
  predicate Survivable(p: Pace, trip: real, lease: real) {
    trip + 2.0 * p.trip + p.late < lease - p.interval
  }

  predicate Sane(p: Pace) {
    p.interval > 0.0 && p.late >= 0.0 && p.trip >= 0.0
  }

  /** From a write at `write` on, the lease is held if the next tick is sent within one trip, one
      interval and the lateness of `from`, and `from` is near enough. */
  lemma {:induction false} HeldFrom(p: Pace, lease: real, armed: real, beats: seq<Beat>, write: real, joined: real, now: real)
    requires Sane(p) && Chain(p, armed, beats, now) && joined < armed + p.interval
    requires armed + p.interval + p.late + p.trip < write + lease && 2.0 * p.trip + p.interval + p.late < lease
    requires write <= now
    ensures Holds(lease, write, now) || Renewed(lease, joined, beats, now)
    decreases beats
  {
    if beats != [] {
      var b := beats[0];
      if b.committed <= now {
        HeldFrom(p, lease, b.settled, beats[1..], b.committed, joined, now);
      }
    }
  }

  /** A run claimed at `claimed` and in flight from `joined`, at most one claim round trip later, is
      renewed in time at every instant, even when it joined just after a tick took its snapshot. */
  lemma {:induction false} LeaseSurvives(p: Pace, trip: real, lease: int, armed: real, beats: seq<Beat>, claimed: real, joined: real, now: real)
    requires Legal(lease) && p.interval == Heartbeat(lease) as real && Sane(p) && Survivable(p, trip, lease as real)
    requires armed <= joined && claimed <= joined <= claimed + trip && claimed <= now
    requires Chain(p, armed, beats, now)
    ensures Alive(lease as real, claimed, joined, beats, now)
    decreases beats
  {
    if joined < armed + p.interval {
      HeldFrom(p, lease as real, armed, beats, claimed, joined, now);
    } else if beats != [] && beats[0].settled <= joined {
      LeaseSurvives(p, trip, lease, beats[0].settled, beats[1..], claimed, joined, now);
    } else if beats != [] {
      // The run joined while the first tick was about: it may have missed its snapshot.
      var b := beats[0];
      if b.sent <= joined {
        HeldFrom(p, lease as real, b.settled, beats[1..], claimed, joined, now);
      } else if b.committed <= now {
        HeldFrom(p, lease as real, b.settled, beats[1..], b.committed, joined, now);
      }
    }
  }

  /** One claimed run and one timeline of the chain, looked at one instant. */
  datatype Schedule = Schedule(armed: real, beats: seq<Beat>, claimed: real, joined: real, now: real)

  predicate Possible(p: Pace, trip: real, s: Schedule) {
    s.armed <= s.joined && s.claimed <= s.joined <= s.claimed + trip && s.claimed <= s.now && Chain(p, s.armed, s.beats, s.now)
  }

  /** Leases survive every schedule that is on pace exactly when the bound holds. */
  lemma SurvivesExactly(p: Pace, trip: real, lease: int)
    requires Legal(lease) && p.interval == Heartbeat(lease) as real && Sane(p) && trip >= 0.0
    ensures (forall s :: Possible(p, trip, s) ==> Alive(lease as real, s.claimed, s.joined, s.beats, s.now))
            <==> Survivable(p, trip, lease as real)
  {
    if Survivable(p, trip, lease as real) {
      forall s | Possible(p, trip, s) ensures Alive(lease as real, s.claimed, s.joined, s.beats, s.now) {
        LeaseSurvives(p, trip, lease, s.armed, s.beats, s.claimed, s.joined, s.now);
      }
    } else {
      // The run joins as a tick goes out, and the next tick commits only at the end of its trip.
      var joined := p.interval;
      var beat := Beat(joined, joined, joined + p.trip);
      var claimed := joined - trip;
      var now := claimed + lease as real;
      assert [beat][1..] == [] && Chain(p, beat.settled, [], now);
      assert !Renewed(lease as real, joined, [beat][1..], now);
      assert Possible(p, trip, Schedule(0.0, [beat], claimed, joined, now));
    }
  }
}
