/** The worker runtime on a clock: the chain of heartbeats that its state machine keeps, its timers
    and round trips within their bounds, renews the lease of every run it works on in time. */
module LeaseKeeping {
  import opened Options
  import opened WorkerRuntime
  import opened Lease

  /** An event of the worker and when it happens. */
  datatype Moment = Moment(at: real, event: Event)

  predicate Plays(w: Worker, ms: seq<Moment>)
    decreases ms
  {
    ms == [] || (Enabled(w, ms[0].event) && Plays(Next(w, ms[0].event), ms[1..]))
  }

  function Ends(w: Worker, ms: seq<Moment>): Worker
    requires Plays(w, ms)
    decreases ms
  {
    if ms == [] then w else Ends(Next(w, ms[0].event), ms[1..])
  }

  function Events(ms: seq<Moment>): seq<Event> {
    seq(|ms|, k requires 0 <= k < |ms| => ms[k].event)
  }

  /** Without its clock a timed run is a run of the machine. */
  lemma {:induction false} PlaysIsRun(w: Worker, ms: seq<Moment>)
    requires Plays(w, ms)
    ensures Run(w, Events(ms)) && After(w, Events(ms)) == Ends(w, ms)
    decreases ms
  {
    if ms != [] {
      assert Events(ms)[1..] == Events(ms[1..]);
      PlaysIsRun(Next(w, ms[0].event), ms[1..]);
    }
  }

  /* ---- a run on pace ---- */

  /** When the last timer was set, and when the last tick was sent. */
  datatype Clock = Clock(armed: real, sent: real)

  const Zero := Clock(0.0, 0.0)

  function Tick(c: Clock, m: Moment): Clock {
    if m.event.TimerCallback? then c.(sent := m.at) else if m.event.TickSettled? then c.(armed := m.at) else c
  }

  /** Ticks are numbered in the order they are sent; `commits` is when each reaches the database. */
  predicate InTime(p: Pace, commits: nat -> real, c: Clock, m: Moment) {
    match m.event
    case TimerCallback => c.armed + p.interval <= m.at <= c.armed + p.interval + p.late
    case TickSettled(t) => c.sent <= commits(t) <= m.at <= c.sent + p.trip
    case _ => true
  }

  predicate NothingDue(p: Pace, commits: nat -> real, c: Clock, w: Worker, now: real) {
    if w.outstanding == {} then now <= c.armed + p.interval + p.late
    else now <= c.sent + p.trip && w.tick.Some? && c.sent <= commits(w.tick.value)
  }

  /** The heartbeats of a run, up to now, come when they should. */
  predicate Timed(p: Pace, commits: nat -> real, c: Clock, w: Worker, from: real, ms: seq<Moment>, now: real)
    requires Plays(w, ms)
    decreases ms
  {
    if ms == [] then from <= now && NothingDue(p, commits, c, w, now)
    else
      && from <= ms[0].at && InTime(p, commits, c, ms[0])
      && Timed(p, commits, Tick(c, ms[0]), Next(w, ms[0].event), ms[0].at, ms[1..], now)
  }

  /** The ticks of a run: the settled ones, and the outstanding one once it has committed. */
  function Beats(commits: nat -> real, c: Clock, w: Worker, ms: seq<Moment>, now: real): seq<Beat>
    requires Plays(w, ms)
    decreases ms
  {
    if ms == [] then
      if w.outstanding != {} && w.tick.Some? && commits(w.tick.value) <= now then [Beat(c.sent, commits(w.tick.value), now)] else []
    else
      var more := Beats(commits, Tick(c, ms[0]), Next(w, ms[0].event), ms[1..], now);
      if ms[0].event.TickSettled? then [Beat(c.sent, commits(ms[0].event.tick), ms[0].at)] + more else more
  }

  /** The machine never sends a tick before the last one has settled, nor breaks the chain before
      the drain is over: its ticks are a chain on pace. */
  lemma {:induction false} BeatsAreChain(p: Pace, commits: nat -> real, c: Clock, w: Worker, from: real, ms: seq<Moment>, now: real)
    requires Sane(p) && Chained(w) && Staged(w) && Plays(w, ms) && !Ends(w, ms).heartbeatStopped && Timed(p, commits, c, w, from, ms, now)
    requires w.outstanding != {} ==> c.armed + p.interval <= c.sent <= c.armed + p.interval + p.late
    ensures !w.heartbeatStopped && Chain(p, c.armed, Beats(commits, c, w, ms, now), now)
    decreases ms
  {
    if ms == [] {
      var beats := Beats(commits, c, w, ms, now);
      if beats != [] { assert beats[1..] == []; }
    } else {
      var d, q := Tick(c, ms[0]), Next(w, ms[0].event);
      NextKeepsChained(w, ms[0].event);
      NextIsLater(w, ms[0].event);
      BeatsAreChain(p, commits, d, q, ms[0].at, ms[1..], now);
      if ms[0].event.TickSettled? {
        assert Beats(commits, c, w, ms, now)[1..] == Beats(commits, d, q, ms[1..], now);
      }
    }
  }

  /* ---- who is renewed ---- */

  /** A tick of the run asked for it, and its write still holds a lease. */
  predicate RenewedIn(lease: real, run: RunId, commits: nat -> real, w: Worker, ms: seq<Moment>, now: real)
    requires Plays(w, ms)
    decreases ms
  {
    ms != [] && (
      || (ms[0].event.TimerCallback? && run in w.inFlight && Lease.Holds(lease, commits(w.ticks), now))
      || RenewedIn(lease, run, commits, Next(w, ms[0].event), ms[1..], now))
  }

  /** After `joined` every timer callback finds the run in flight. */
  predicate InFlightAfter(run: RunId, joined: real, w: Worker, ms: seq<Moment>)
    requires Plays(w, ms)
    decreases ms
  {
    ms == [] || (
      && (ms[0].event.TimerCallback? && ms[0].at > joined ==> run in w.inFlight)
      && InFlightAfter(run, joined, Next(w, ms[0].event), ms[1..]))
  }

  lemma {:induction false} BeatsRenew(lease: real, run: RunId, joined: real, commits: nat -> real, c: Clock, w: Worker, ms: seq<Moment>, now: real)
    requires Chained(w) && Staged(w) && Plays(w, ms) && !Ends(w, ms).heartbeatStopped && InFlightAfter(run, joined, w, ms)
    requires Renewed(lease, joined, Beats(commits, c, w, ms, now), now)
    ensures !w.heartbeatStopped
    ensures RenewedIn(lease, run, commits, w, ms, now)
            || (w.outstanding != {} && c.sent > joined && Lease.Holds(lease, commits(w.tick.value), now))
    decreases ms
  {
    var beats := Beats(commits, c, w, ms, now);
    if ms == [] {
      assert beats[1..] == [];
    } else {
      var d, q := Tick(c, ms[0]), Next(w, ms[0].event);
      NextKeepsChained(w, ms[0].event);
      NextIsLater(w, ms[0].event);
      StillBeating(q, ms[1..]);
      if ms[0].event.TickSettled? {
        assert beats[1..] == Beats(commits, d, q, ms[1..], now);
      }
      if Renewed(lease, joined, Beats(commits, d, q, ms[1..], now), now) {
        BeatsRenew(lease, run, joined, commits, d, q, ms[1..], now);
      }
    }
  }

  lemma {:induction false} StillBeating(w: Worker, ms: seq<Moment>)
    requires Plays(w, ms) && !Ends(w, ms).heartbeatStopped
    ensures !w.heartbeatStopped
    decreases ms
  {
    if ms != [] {
      NextIsLater(w, ms[0].event);
      StillBeating(Next(w, ms[0].event), ms[1..]);
    }
  }

  /** No slot ends an execution of the run. */
  predicate Working(run: RunId, w: Worker, ms: seq<Moment>)
    requires Plays(w, ms)
    decreases ms
  {
    ms == [] || (
      && (ms[0].event.ExecutionEnded? ==> w.slots[ms[0].event.slot].run != run)
      && Working(run, Next(w, ms[0].event), ms[1..]))
  }

  /** Somewhere in the run a claim returns it at `joined`, and it is worked on from then on. */
  predicate ClaimedAt(run: RunId, joined: real, w: Worker, ms: seq<Moment>)
    requires Plays(w, ms)
    decreases ms
  {
    ms != [] && (
      || (ms[0].at == joined && ms[0].event.ClaimReturned? && ms[0].event.reply == Claimed(run, true) && !w.stopping
          && Working(run, Next(w, ms[0].event), ms[1..]))
      || ClaimedAt(run, joined, Next(w, ms[0].event), ms[1..]))
  }

  lemma {:induction false} WorkingIsInFlight(run: RunId, joined: real, w: Worker, ms: seq<Moment>)
    requires Plays(w, ms) && Working(run, w, ms) && run in w.inFlight
    ensures InFlightAfter(run, joined, w, ms)
    decreases ms
  {
    if ms != [] { WorkingIsInFlight(run, joined, Next(w, ms[0].event), ms[1..]); }
  }

  lemma {:induction false} ClaimedIsInFlight(p: Pace, commits: nat -> real, c: Clock, run: RunId, joined: real, w: Worker, from: real, ms: seq<Moment>, now: real)
    requires Plays(w, ms) && ClaimedAt(run, joined, w, ms) && Timed(p, commits, c, w, from, ms, now)
    ensures InFlightAfter(run, joined, w, ms) && from <= joined <= now
    decreases ms
  {
    var q := Next(w, ms[0].event);
    if ClaimedAt(run, joined, q, ms[1..]) {
      ClaimedIsInFlight(p, commits, Tick(c, ms[0]), run, joined, q, ms[0].at, ms[1..], now);
    } else {
      WorkingIsInFlight(run, joined, q, ms[1..]);
      TimeGoesOn(p, commits, Tick(c, ms[0]), q, ms[0].at, ms[1..], now);
    }
  }

  lemma {:induction false} TimeGoesOn(p: Pace, commits: nat -> real, c: Clock, w: Worker, from: real, ms: seq<Moment>, now: real)
    requires Plays(w, ms) && Timed(p, commits, c, w, from, ms, now)
    ensures from <= now
    decreases ms
  {
    if ms != [] { TimeGoesOn(p, commits, Tick(c, ms[0]), Next(w, ms[0].event), ms[0].at, ms[1..], now); }
  }

  /* ---- the promises ---- */

  /** A worker's run up to now, with a claim that committed at `claimed` and returned at `joined`. */
  datatype Story = Story(ms: seq<Moment>, commits: nat -> real, run: RunId, claimed: real, joined: real, now: real)

  /** From its start to now the worker has been on pace and has not drained; it has worked on the run
      since the claim, which took at most `trip`. */
  predicate Possibly(p: Pace, trip: real, start: Worker, s: Story) {
    && Plays(start, s.ms) && !Ends(start, s.ms).heartbeatStopped && Timed(p, s.commits, Zero, start, 0.0, s.ms, s.now)
    && ClaimedAt(s.run, s.joined, start, s.ms) && s.joined - trip <= s.claimed <= s.joined
  }

  predicate Kept(lease: real, start: Worker, s: Story)
    requires Plays(start, s.ms)
  {
    Lease.Holds(lease, s.claimed, s.now) || RenewedIn(lease, s.run, s.commits, start, s.ms, s.now)
  }

  lemma WorkerKeepsLease(p: Pace, trip: real, lease: int, namespaces: nat, concurrency: nat, s: Story)
    requires Legal(lease) && p.interval == Heartbeat(lease) as real && Sane(p) && Survivable(p, trip, lease as real)
    requires Possibly(p, trip, WorkerRuntime.Start(namespaces, concurrency), s)
    ensures Kept(lease as real, WorkerRuntime.Start(namespaces, concurrency), s)
  {
    var start := WorkerRuntime.Start(namespaces, concurrency);
    StartSound(namespaces, concurrency);
    var beats := Beats(s.commits, Zero, start, s.ms, s.now);
    BeatsAreChain(p, s.commits, Zero, start, 0.0, s.ms, s.now);
    ClaimedIsInFlight(p, s.commits, Zero, s.run, s.joined, start, 0.0, s.ms, s.now);
    LeaseSurvives(p, trip, lease, 0.0, beats, s.claimed, s.joined, s.now);
    if Renewed(lease as real, s.joined, beats, s.now) {
      BeatsRenew(lease as real, s.run, s.joined, s.commits, Zero, start, s.ms, s.now);
    }
  }

  /** A tick goes out, and right after it the run is claimed: that tick does not ask for it, and the
      next one commits too late. */
  function JustMissed(p: Pace, trip: real, lease: real): Story {
    var claimed := p.interval - trip;
    var now := if claimed + lease < p.interval then p.interval else claimed + lease;
    var settled := p.interval + p.trip;
    var next := settled + p.interval + p.late;
    var ms := [Moment(0.0, SlotTurn(0)), Moment(p.interval, TimerCallback), Moment(p.interval, ClaimReturned(0, Claimed(0, true)))]
      + (if now <= settled then [] else [Moment(settled, TickSettled(0))])
      + (if now <= next then [] else [Moment(next, TimerCallback)]);
    Story(ms, t => if t == 0 then p.interval else now + 1.0, 0, claimed, p.interval, now)
  }

  /** The worker after the claim, and what the story still asks of it. */
  lemma MissedClaim(p: Pace, trip: real, lease: real, namespaces: nat, concurrency: nat) returns (w: Worker)
    requires concurrency > 0 && Sane(p)
    ensures w.outstanding == {0} && w.tick == Some(0) && w.ticks == 1 && w.callbacks == 0 && !w.heartbeatStopped
    ensures var start, s := WorkerRuntime.Start(namespaces, concurrency), JustMissed(p, trip, lease);
      var rest := s.ms[3..];
      Plays(w, rest) ==>
        && Plays(start, s.ms) && Ends(start, s.ms) == Ends(w, rest)
        && (Timed(p, s.commits, Clock(0.0, p.interval), w, p.interval, rest, s.now) ==> Timed(p, s.commits, Zero, start, 0.0, s.ms, s.now))
        && (RenewedIn(lease, 0, s.commits, start, s.ms, s.now) ==> RenewedIn(lease, 0, s.commits, w, rest, s.now))
        && (Working(0, w, rest) ==> ClaimedAt(0, p.interval, start, s.ms))
  {
    var start, s := WorkerRuntime.Start(namespaces, concurrency), JustMissed(p, trip, lease);
    var m1, m2, rest := s.ms[1..], s.ms[2..], s.ms[3..];
    var w1 := Next(start, s.ms[0].event);
    var w2 := Next(w1, m1[0].event);
    w := Next(w2, m2[0].event);
    assert m1[1..] == m2 && m2[1..] == rest && w2.inFlight == map[];
    if Plays(w, rest) {
      assert Plays(w2, m2) && Ends(w2, m2) == Ends(w, rest);
      assert Plays(w1, m1) && Ends(w1, m1) == Ends(w, rest);
      if Timed(p, s.commits, Clock(0.0, p.interval), w, p.interval, rest, s.now) {
        assert Timed(p, s.commits, Clock(0.0, p.interval), w2, p.interval, m2, s.now);
        assert Timed(p, s.commits, Zero, w1, 0.0, m1, s.now);
      }
      assert RenewedIn(lease, 0, s.commits, w2, m2, s.now) ==> RenewedIn(lease, 0, s.commits, w, rest, s.now);
      assert RenewedIn(lease, 0, s.commits, w1, m1, s.now) ==> RenewedIn(lease, 0, s.commits, w2, m2, s.now);
      if Working(0, w, rest) {
        assert ClaimedAt(0, p.interval, w2, m2);
        assert ClaimedAt(0, p.interval, w1, m1);
      }
    }
  }

  /** What is left of the story: the first tick settles if it must, and the next one goes out if it must. */
  lemma MissedRest(p: Pace, trip: real, lease: real, w: Worker)
    requires Sane(p) && trip >= 0.0 && lease > 0.0 && !Survivable(p, trip, lease)
    requires w.outstanding == {0} && w.tick == Some(0) && w.ticks == 1 && w.callbacks == 0 && !w.heartbeatStopped
    ensures var s := JustMissed(p, trip, lease); var rest := s.ms[3..];
      && Plays(w, rest) && !Ends(w, rest).heartbeatStopped && Working(0, w, rest)
      && Timed(p, s.commits, Clock(0.0, p.interval), w, p.interval, rest, s.now)
      && !RenewedIn(lease, 0, s.commits, w, rest, s.now)
  {
    var s := JustMissed(p, trip, lease);
    var rest := s.ms[3..];
    if |rest| > 0 {
      assert rest[0] == Moment(p.interval + p.trip, TickSettled(0));
      var q, more := Next(w, rest[0].event), rest[1..];
      var c := Clock(p.interval + p.trip, p.interval);
      assert q.outstanding == {} && q.callbacks == 1;
      if |more| > 0 {
        var z := Next(q, more[0].event);
        assert more[0] == Moment(c.armed + p.interval + p.late, TimerCallback) && more[1..] == [];
        assert Plays(z, []) && Working(0, z, []) && !RenewedIn(lease, 0, s.commits, z, [], s.now);
        assert Timed(p, s.commits, Tick(c, more[0]), z, more[0].at, [], s.now);
      }
      assert Plays(q, more) && !Ends(q, more).heartbeatStopped && Working(0, q, more);
      assert Timed(p, s.commits, c, q, p.interval + p.trip, more, s.now);
      assert !RenewedIn(lease, 0, s.commits, q, more, s.now);
    }
  }

  lemma MissedLosesLease(p: Pace, trip: real, lease: real, namespaces: nat, concurrency: nat)
    requires concurrency > 0 && Sane(p) && trip >= 0.0 && lease > 0.0 && !Survivable(p, trip, lease)
    ensures Possibly(p, trip, WorkerRuntime.Start(namespaces, concurrency), JustMissed(p, trip, lease))
    ensures !Kept(lease, WorkerRuntime.Start(namespaces, concurrency), JustMissed(p, trip, lease))
  {
    var w := MissedClaim(p, trip, lease, namespaces, concurrency);
    MissedRest(p, trip, lease, w);
  }

  /** At every instant of every timed run on pace a worker holds the lease of every run it works on,
      if and only if the bound holds. */
  lemma WorkerKeepsLeasesExactly(p: Pace, trip: real, lease: int, namespaces: nat, concurrency: nat)
    requires Legal(lease) && p.interval == Heartbeat(lease) as real && Sane(p) && trip >= 0.0 && concurrency > 0
    ensures (forall s :: Possibly(p, trip, WorkerRuntime.Start(namespaces, concurrency), s) ==>
               Kept(lease as real, WorkerRuntime.Start(namespaces, concurrency), s))
            <==> Survivable(p, trip, lease as real)
  {
    if Survivable(p, trip, lease as real) {
      forall s | Possibly(p, trip, WorkerRuntime.Start(namespaces, concurrency), s)
        ensures Kept(lease as real, WorkerRuntime.Start(namespaces, concurrency), s)
      {
        WorkerKeepsLease(p, trip, lease, namespaces, concurrency, s);
      }
    } else {
      MissedLosesLease(p, trip, lease as real, namespaces, concurrency);
    }
  }
}
