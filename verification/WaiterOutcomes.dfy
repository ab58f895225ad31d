/** What each event comes to for a waiter, in the literal terms of its call, of the rows read and of
    the clock; the statuses that end a run are spelled out. */
module WaiterOutcomes {
  import opened Options
  import opened Waiters
  import opened WaiterPolling

  predicate Ended(row: RunRead) {
    row.status.Completed? || row.status.Failed? || row.status.Canceled?
  }

  predicate SettledAs(q: Registry, i: nat, outcome: Outcome, now: real) {
    i in q.settled && q.settled[i] == Settlement(outcome, now) && i !in q.active
  }

  /** Still pending, and the status just read is the last it knows. */
  predicate KeepsWaiting(q: Registry, i: nat, row: RunRead) {
    IsPending(q, i) && i in q.active && q.waiters[i].lastStatus == Some(row.status)
  }

  /** How a wait whose time is up ends: with an error if its caller asked for one, else with the status. */
  function TimeIsOver(w: Waiter, status: Status): Outcome {
    if w.throwOnTimeout then TimedOut(status) else Latest(status)
  }

  /* ---- over every history ---- */

  lemma {:induction false} PollTimesOut(w: Waiter, seen: seq<Observation>, expired: bool)
    ensures match Poll(w, seen, expired)
      case Some(TimedOut(_)) => w.throwOnTimeout && w.budget != Some(0.0)
      case Some(Latest(status)) => !w.throwOnTimeout || w.budget == Some(0.0)
      case _ => true
    ensures match Poll(w, seen, expired)
      case Some(TimedOut(status)) => !Ended(RunRead(status, 0, 0))
      case Some(Latest(status)) => !Ended(RunRead(status, 0, 0))
      case Some(Result(row)) => Ended(row)
      case _ => true
  {
    if seen != [] { PollTimesOut(w, seen[1..], expired); }
  }

  /** Every waiter that timed out with an error was called so, with a limit other than zero; every one
      that got a status was called without, or with a limit of zero; and both only with a limit. A run's
      result is given only when it is completed, failed or canceled, a status only when it is not. */
  lemma SettledAsCalled(ms: seq<Moment>, i: nat)
    requires Run(Fresh, ms) && i in After(Fresh, ms).settled
    ensures var call, outcome := CallOf(Fresh, ms, i), After(Fresh, ms).settled[i].outcome;
      && call.Some? && call.value in ms && call.value.event.Registered?
      && (outcome.TimedOut? ==> call.value.event.throwOnTimeout && call.value.event.timeout != Milliseconds(0.0))
      && (outcome.Latest? ==> !call.value.event.throwOnTimeout || call.value.event.timeout == Milliseconds(0.0))
      && (outcome.TimedOut? || outcome.Latest? ==> call.value.event.timeout != Forever && !Ended(RunRead(outcome.status, 0, 0)))
      && (outcome.Result? ==> Ended(outcome.row))
  {
    RunKeepsSound(Fresh, ms);
    var r := After(Fresh, ms);
    assert WaiterSound(r, i);
    var w := r.waiters[i];
    CallFound(Fresh, ms, i, ms[0].now);
    PollTimesOut(w, w.seen, false);
    PollTimesOut(w, w.seen, true);
  }

  /* ---- registering and the initial read ---- */

  /** A call is refused when the registry has stopped, its signal has already fired, or its limit is
      negative or no number; every other makes one waiter more, which is read at once. */
  lemma CallAnswered(r: Registry, now: real, run: RunId, timeout: Timeout, throwOnTimeout: bool, signal: bool, aborted: bool)
    ensures var q := Next(r, now, Registered(run, timeout, throwOnTimeout, signal, aborted)); var i := |r.waiters|;
      if r.stopped || (signal && aborted) || timeout == NotANumber || (timeout.Milliseconds? && timeout.ms < 0.0) then q == r
      else
        && |q.waiters| == i + 1 && q.waiters[..i] == r.waiters && i in q.active && i in q.reading
        && q.waiters[i].runId == run && q.waiters[i].throwOnTimeout == throwOnTimeout && q.waiters[i].listening == signal
        && AsCalled(Registered(run, timeout, throwOnTimeout, signal, aborted), q.waiters[i])
        && q.active == r.active + {i} && q.pending == r.pending && q.settled == r.settled
  {
  }

  /** What an initial read does to the waiter it is for. */
  predicate FirstAnswer(w: Waiter, q: Registry, now: real, result: ReadResult, i: nat) {
    match result
    case ReadError => SettledAs(q, i, ReadFailed, now)
    case Read(Missing) => SettledAs(q, i, NotFound, now)
    case Read(Found(row)) =>
      if Ended(row) then SettledAs(q, i, Result(row), now)
      else if w.budget == Some(0.0) then SettledAs(q, i, Latest(row.status), now)
      else KeepsWaiting(q, i, row) && Clocked(q.waiters[i], now, w.budget)
  }

  /** Without a limit neither deadline nor timer; else a deadline, and a timer for what one timer holds. */
  predicate Clocked(v: Waiter, now: real, budget: Option<real>) {
    if budget.None? then v.deadline.None? && v.timer.None?
    else
      && v.deadline == Some(now + budget.value) && v.timer.Some? && v.timer.value.setAt == now
      && TimerFor(v.timer.value.delay, budget.value)
  }

  lemma ParkAnswers(r: Registry, now: real, i: nat, row: RunRead)
    requires i < |r.waiters| && i in r.active && r.waiters[i].timer.None?
    requires r.waiters[i].budget.Some? ==> r.waiters[i].budget.value > 0.0
    ensures var q := Park(r, now, i, row);
      |q.waiters| == |r.waiters| && KeepsWaiting(q, i, row) && Clocked(q.waiters[i], now, r.waiters[i].budget)
  {
    var m := Enter(r.(waiters := r.waiters[i := FirstStatus(r.waiters[i], now, row)]), i);
    assert IsPending(m, i) && m.waiters[i].timer.None?;
  }

  lemma FirstReadAnswers(r: Registry, now: real, i: nat, result: ReadResult)
    requires i < |r.waiters| && i in r.active && r.waiters[i].timer.None?
    requires r.waiters[i].budget.Some? ==> r.waiters[i].budget.value >= 0.0
    ensures FirstAnswer(r.waiters[i], FirstRead(r, now, i, result), now, result, i)
  {
    if result.Read? && result.reply.Found? && !Ended(result.reply.row) && r.waiters[i].budget != Some(0.0) {
      ParkAnswers(r, now, i, result.reply.row);
    }
  }

  /** The initial read of a waiter that is still wanted: an error rejects it with that error, a missing
      run with not found, an ended run resolves it, a limit of zero resolves it with the status; any
      other parks it with its deadline, and a timer for as much of it as one timer holds. */
  lemma InitialReadAnswered(ms: seq<Moment>, now: real, i: nat, result: ReadResult)
    requires Run(Fresh, ms) && i in After(Fresh, ms).reading && i in After(Fresh, ms).active && i < |After(Fresh, ms).waiters|
    ensures var r := After(Fresh, ms);
      FirstAnswer(r.waiters[i], Next(r, now, InitialReadReturned(i, result)), now, result, i)
  {
    RunKeepsSound(Fresh, ms);
    var r := After(Fresh, ms);
    assert WaiterSound(r, i);
    CallFound(Fresh, ms, i, ms[0].now);
    FirstReadAnswers(r.(reading := r.reading - {i}), now, i, result);
  }

  /** The delay is the time left, rounded up, or the largest a timer takes. */
  predicate TimerFor(delay: int, left: real) {
    if left > 2147483647.0 then delay == 2147483647 else left <= delay as real < left + 1.0
  }

  /** A fired deadline timer: the wait is over, or the next timer is set for what is left of it. */
  lemma TimerAnswered(ms: seq<Moment>, now: real, i: nat)
    requires Run(Fresh, ms) && Enabled(After(Fresh, ms), DeadlineFired(i))
    ensures var r := After(Fresh, ms); var q := Next(r, now, DeadlineFired(i)); var w := r.waiters[i];
      && w.deadline.Some? && w.lastStatus.Some?
      && if w.deadline.value <= now then SettledAs(q, i, TimeIsOver(w, w.lastStatus.value), now)
         else IsPending(q, i) && q.waiters[i].timer.Some? && q.waiters[i].timer.value.setAt == now
              && TimerFor(q.waiters[i].timer.value.delay, w.deadline.value - now)
  {
    RunKeepsSound(Fresh, ms);
    assert WaiterSound(After(Fresh, ms), i);
  }

  /* ---- notifications ---- */

  /** A notification for a run somebody waits for starts a read that is for all who wait for it. */
  lemma NotificationReads(ms: seq<Moment>, now: real, i: nat) returns (t: Ticket)
    requires Run(Fresh, ms) && IsPending(After(Fresh, ms), i)
    ensures var r := After(Fresh, ms); var q := Next(r, now, TerminalNotified(r.waiters[i].runId));
      q.resolving == r.resolving + multiset{t} && i in MembersOf(q, t) && t.runId == r.waiters[i].runId
  {
    var r := After(Fresh, ms);
    t := Ticket(r.waiters[i].runId, r.pending[r.waiters[i].runId].id);
  }

  /** What a row read for it does to a pending waiter. */
  predicate Answered(q: Registry, now: real, reply: Observation, i: nat) {
    match reply
    case Missing => SettledAs(q, i, NotFound, now)
    case Found(row) => if Ended(row) then SettledAs(q, i, Result(row), now) else KeepsWaiting(q, i, row)
  }

  lemma ResolveOneAnswers(r: Registry, now: real, reply: Observation, i: nat)
    requires AllSound(r) && IsPending(r, i)
    ensures Answered(ResolveOne(r, now, reply, i), now, reply, i)
  {
    assert WaiterSound(r, i);
    ResolveOneKeeps(r, now, reply, i);
    if reply.Found? && !Ended(reply.row) { ObserveKeepsOthers(r, i, reply.row); }
  }

  lemma ResolveOneSpares(r: Registry, now: real, reply: Observation, i: nat, k: nat)
    requires AllSound(r) && k < |r.waiters|
    ensures var q := ResolveOne(r, now, reply, i);
      && (k != i && IsPending(r, k) ==> IsPending(q, k) && q.waiters[k] == r.waiters[k])
      && (Answered(r, now, reply, k) ==> Answered(q, now, reply, k))
  {
    ResolveOneKeeps(r, now, reply, i);
    assert WaiterSound(r, k);
    if IsPending(r, k) && k == i { ResolveOneAnswers(r, now, reply, i); }
    if k in r.settled { assert WaiterSound(ResolveOne(r, now, reply, i), k); }
  }

  lemma {:induction false} ResolveAllAnswers(r: Registry, now: real, reply: Observation, entries: seq<nat>, k: nat)
    requires AllSound(r) && IsPending(r, k)
    ensures var q := ResolveAll(r, now, reply, entries);
      if k in entries then Answered(q, now, reply, k) else IsPending(q, k) && q.waiters[k] == r.waiters[k]
  {
    if entries != [] {
      var rest, i := entries[..|entries| - 1], entries[|entries| - 1];
      var m := ResolveAll(r, now, reply, rest);
      ResolveAllAnswers(r, now, reply, rest, k);
      ResolveAllKeeps(r, now, reply, rest);
      assert entries == rest + [i] && (k in entries <==> k in rest || k == i);
      if k == i && k !in rest {
        ResolveOneAnswers(m, now, reply, i);
      } else {
        ResolveOneSpares(m, now, reply, i, k);
      }
    }
  }

  /** The read behind a notification: every waiter then in the set it captured is answered by it, and
      a failed read changes nothing. */
  lemma NotificationAnswers(ms: seq<Moment>, now: real, t: Ticket, result: ReadResult, entries: seq<nat>, i: nat)
    requires Run(Fresh, ms) && Enabled(After(Fresh, ms), ResolveReadReturned(t, result, entries))
    requires i in MembersOf(After(Fresh, ms), t) && IsPending(After(Fresh, ms), i)
    ensures var q := Next(After(Fresh, ms), now, ResolveReadReturned(t, result, entries));
      if result.Read? then Answered(q, now, result.reply, i)
      else q.waiters == After(Fresh, ms).waiters && q.settled == After(Fresh, ms).settled && q.pending == After(Fresh, ms).pending
  {
    RunKeepsSound(Fresh, ms);
    var r := After(Fresh, ms);
    var m := r.(resolving := r.resolving - multiset{t});
    TicketsKeep(r, m);
    if result.Read? { ResolveAllAnswers(m, now, result.reply, entries, i); }
  }

  /** Sets keep their identity: one made later is another, also for the same run. */
  ghost predicate RoomsKept(r: Registry, q: Registry) {
    && r.rooms <= q.rooms
    && forall run :: run in q.pending ==>
         (run in r.pending && q.pending[run].id == r.pending[run].id) || q.pending[run].id >= r.rooms
  }

  lemma SettleKeepsRooms(r: Registry, now: real, i: nat, seen: seq<Observation>, outcome: Outcome)
    requires i < |r.waiters|
    ensures RoomsKept(r, Settle(r, now, i, seen, outcome))
  {
  }

  lemma EnterKeepsRooms(r: Registry, i: nat)
    requires i < |r.waiters|
    ensures RoomsKept(r, Enter(r, i))
  {
  }

  lemma ArmKeepsRooms(r: Registry, now: real, i: nat)
    requires i < |r.waiters|
    ensures RoomsKept(r, ArmDeadline(r, now, i))
  {
  }

  lemma RoomsTwice(r: Registry, m: Registry, q: Registry)
    requires RoomsKept(r, m) && RoomsKept(m, q)
    ensures RoomsKept(r, q)
  {
  }

  lemma ParkKeepsRooms(r: Registry, now: real, i: nat, row: RunRead)
    requires i < |r.waiters|
    ensures RoomsKept(r, Park(r, now, i, row))
  {
    var m := r.(waiters := r.waiters[i := FirstStatus(r.waiters[i], now, row)]);
    assert RoomsKept(r, m);
    EnterKeepsRooms(m, i);
    RoomsTwice(r, m, Enter(m, i));
    ArmKeepsRooms(Enter(m, i), now, i);
    RoomsTwice(r, Enter(m, i), ArmDeadline(Enter(m, i), now, i));
  }

  lemma FirstReadKeepsRooms(r: Registry, now: real, i: nat, result: ReadResult)
    requires i < |r.waiters|
    ensures RoomsKept(r, FirstRead(r, now, i, result))
  {
    var w, q := r.waiters[i], FirstRead(r, now, i, result);
    if result.Read? && result.reply.Found? && !Terminal(result.reply.row.status) && w.budget != Some(0.0) {
      ParkKeepsRooms(r, now, i, result.reply.row);
    } else {
      assert q == r || q.pending == Leave(r.pending, w.runId, i);
    }
  }

  lemma {:induction false} ResolveAllKeepsRooms(r: Registry, now: real, reply: Observation, entries: seq<nat>)
    ensures RoomsKept(r, ResolveAll(r, now, reply, entries))
  {
    if entries != [] { ResolveAllKeepsRooms(r, now, reply, entries[..|entries| - 1]); }
  }

  lemma SweepOneKeepsRooms(r: Registry, now: real, rows: map<RunId, RunRead>, i: nat)
    ensures RoomsKept(r, SweepOne(r, now, rows, i))
  {
  }

  lemma {:induction false} SweepAllKeepsRooms(r: Registry, now: real, rows: map<RunId, RunRead>, entries: seq<nat>)
    ensures RoomsKept(r, SweepAll(r, now, rows, entries))
  {
    if entries != [] {
      SweepAllKeepsRooms(r, now, rows, entries[..|entries| - 1]);
      SweepOneKeepsRooms(SweepAll(r, now, rows, entries[..|entries| - 1]), now, rows, entries[|entries| - 1]);
    }
  }

  lemma {:induction false} StopAllKeepsRooms(r: Registry, now: real, n: nat)
    ensures RoomsKept(r, StopAll(r, now, n))
  {
    if n > 0 { StopAllKeepsRooms(r, now, n - 1); }
  }

  lemma NextKeepsRooms(r: Registry, now: real, e: Event)
    requires Enabled(r, e)
    ensures RoomsKept(r, Next(r, now, e))
  {
    if e.InitialReadReturned? {
      FirstReadKeepsRooms(r.(reading := r.reading - {e.i}), now, e.i, e.result);
    } else if e.DeadlineFired? {
      ArmKeepsRooms(r.(waiters := r.waiters[e.i := r.waiters[e.i].(timer := None)]), now, e.i);
    } else if e.ResolveReadReturned? && e.result.Read? {
      ResolveAllKeepsRooms(r.(resolving := r.resolving - multiset{e.ticket}), now, e.result.reply, e.entries);
    } else if e.SweepReturned? && e.rows.Some? {
      SweepAllKeepsRooms(r.(sweeping := None), now, e.rows.value, r.sweeping.value);
    } else if e.SignalAborted? {
      SettleKeepsRooms(r, now, e.i, r.waiters[e.i].seen, Aborted);
    } else if e.StopCalled? {
      StopAllKeepsRooms(r.(stopped := true), now, |r.waiters|);
    }
  }

  lemma {:induction false} RunKeepsRooms(r: Registry, ms: seq<Moment>)
    requires Run(r, ms)
    ensures RoomsKept(r, After(r, ms))
    decreases ms
  {
    if ms != [] {
      NextKeepsRooms(r, ms[0].now, ms[0].event);
      RunKeepsRooms(Next(r, ms[0].now, ms[0].event), ms[1..]);
    }
  }

  /** A set that was captured by a read and has been emptied since stays empty: who waits for the same
      run from then on waits in another, and that read is not for them. */
  lemma EmptiedSetStaysEmpty(ms: seq<Moment>, t: Ticket, ns: seq<Moment>)
    requires Run(Fresh, ms) && Run(After(Fresh, ms), ns)
    requires t.room < After(Fresh, ms).rooms && MembersOf(After(Fresh, ms), t) == {}
    ensures MembersOf(After(After(Fresh, ms), ns), t) == {}
  {
    RunKeepsSound(Fresh, ms);
    var r := After(Fresh, ms);
    assert forall run :: run in r.pending ==> Roomed(r, run);
    RunKeepsRooms(r, ns);
  }

  /* ---- the sweep ---- */

  /** A tick starts a sweep of everybody pending, unless one is running or nobody is; and its answer,
      whatever it is, makes room for the next. */
  lemma TicksSweep(r: Registry, now: real, entries: seq<nat>)
    requires Enabled(r, PollTick(entries))
    ensures var q := Next(r, now, PollTick(entries));
      && (r.sweeping.None? && entries != [] ==> q == r.(sweeping := Some(entries)))
      && (r.sweeping.Some? || entries == [] ==> q == r)
    ensures forall i :: IsPending(r, i) <==> i in entries
  {
  }

  lemma {:induction false} SweepFrees(r: Registry, now: real, rows: map<RunId, RunRead>, entries: seq<nat>)
    ensures SweepAll(r, now, rows, entries).sweeping == r.sweeping
  {
    if entries != [] { SweepFrees(r, now, rows, entries[..|entries| - 1]); }
  }

  predicate Swept(w: Waiter, q: Registry, now: real, rows: map<RunId, RunRead>, i: nat) {
    if w.runId !in rows then SettledAs(q, i, NotFound, now)
    else
      var row := rows[w.runId];
      if Ended(row) then SettledAs(q, i, Result(row), now)
      else if w.deadline.Some? && w.deadline.value <= now then SettledAs(q, i, TimeIsOver(w, row.status), now)
      else KeepsWaiting(q, i, row)
  }

  /** What a sweep's verdict on a waiter rests on. */
  predicate Alike(w: Waiter, v: Waiter) {
    v.runId == w.runId && v.deadline == w.deadline && v.throwOnTimeout == w.throwOnTimeout
  }

  lemma SweepOneAnswers(r: Registry, now: real, rows: map<RunId, RunRead>, i: nat)
    requires AllSound(r) && IsPending(r, i)
    ensures Swept(r.waiters[i], SweepOne(r, now, rows, i), now, rows, i)
  {
    assert WaiterSound(r, i);
    SweepOneKeeps(r, now, rows, i);
    if r.waiters[i].runId in rows { ObserveKeepsOthers(r, i, rows[r.waiters[i].runId]); }
  }

  lemma SweepOneSpares(r: Registry, now: real, rows: map<RunId, RunRead>, i: nat, k: nat, w: Waiter)
    requires AllSound(r) && k < |r.waiters| && Alike(w, r.waiters[k])
    ensures var q := SweepOne(r, now, rows, i);
      && k < |q.waiters| && Alike(w, q.waiters[k])
      && (k != i && IsPending(r, k) ==> IsPending(q, k) && q.waiters[k] == r.waiters[k])
      && (Swept(w, r, now, rows, k) ==> Swept(w, q, now, rows, k))
  {
    SweepOneKeeps(r, now, rows, i);
    SweepOneChains(r, now, rows, i);
    assert WaiterSound(r, k) && ChainRests(r.waiters[k], SweepOne(r, now, rows, i).waiters[k]);
    if k == i && IsPending(r, k) { SweepOneAnswers(r, now, rows, i); }
    if k in r.settled { assert WaiterSound(SweepOne(r, now, rows, i), k); }
  }

  /** How waiter `k`, pending when a sweep's answer came, stands after some of its entries. */
  predicate SweptOrNot(w: Waiter, q: Registry, now: real, rows: map<RunId, RunRead>, k: nat, done: bool) {
    && k < |q.waiters| && Alike(w, q.waiters[k])
    && if done then Swept(w, q, now, rows, k) else IsPending(q, k) && q.waiters[k] == w
  }

  lemma SweepStep(m: Registry, now: real, rows: map<RunId, RunRead>, i: nat, w: Waiter, k: nat, done: bool)
    requires AllSound(m) && SweptOrNot(w, m, now, rows, k, done)
    ensures SweptOrNot(w, SweepOne(m, now, rows, i), now, rows, k, done || k == i)
  {
    SweepOneSpares(m, now, rows, i, k, w);
    if k == i && !done { SweepOneAnswers(m, now, rows, i); }
  }

  lemma {:induction false} SweepAllAnswers(r: Registry, now: real, rows: map<RunId, RunRead>, entries: seq<nat>, k: nat)
    requires AllSound(r) && IsPending(r, k)
    ensures SweptOrNot(r.waiters[k], SweepAll(r, now, rows, entries), now, rows, k, k in entries)
  {
    if entries != [] {
      var rest, i := entries[..|entries| - 1], entries[|entries| - 1];
      SweepAllAnswers(r, now, rows, rest, k);
      SweepAllKeeps(r, now, rows, rest);
      SweepStep(SweepAll(r, now, rows, rest), now, rows, i, r.waiters[k], k, k in rest);
      assert entries == rest + [i] && (k in entries <==> k in rest || k == i);
    }
  }

  /** A sweep answers every waiter it started with that is still pending: not found, the result, the
      timeout of its deadline, or the status to wait on with; and a failed one changes no waiter. */
  lemma SweepAnswers(ms: seq<Moment>, now: real, rows: Option<map<RunId, RunRead>>, i: nat)
    requires Run(Fresh, ms) && After(Fresh, ms).sweeping.Some?
    requires i in After(Fresh, ms).sweeping.value && IsPending(After(Fresh, ms), i)
    ensures var r := After(Fresh, ms); var q := Next(r, now, SweepReturned(rows));
      && q.sweeping.None?
      && if rows.Some? then Swept(r.waiters[i], q, now, rows.value, i)
         else q.waiters == r.waiters && q.settled == r.settled && q.pending == r.pending
  {
    RunKeepsSound(Fresh, ms);
    var r := After(Fresh, ms);
    var m := r.(sweeping := None);
    TicketsKeep(r, m);
    if rows.Some? {
      SweepAllAnswers(m, now, rows.value, r.sweeping.value, i);
      SweepFrees(m, now, rows.value, r.sweeping.value);
    }
  }

  /* ---- the ends from outside ---- */

  /** A fired signal aborts its waiter; stop rejects every active one as stopped. */
  lemma SignalAborts(ms: seq<Moment>, now: real, i: nat)
    requires Run(Fresh, ms) && Enabled(After(Fresh, ms), SignalAborted(i))
    ensures i in After(Fresh, ms).active && SettledAs(Next(After(Fresh, ms), now, SignalAborted(i)), i, Aborted, now)
  {
    RunKeepsSound(Fresh, ms);
    assert WaiterSound(After(Fresh, ms), i);
  }

  lemma StopOneRejects(r: Registry, now: real, k: nat, i: nat)
    requires i < |r.waiters|
    ensures var q := StopOne(r, now, k);
      && |q.waiters| == |r.waiters|
      && (k == i && i in r.active ==> SettledAs(q, i, Stopped, now))
      && (k != i ==> (i in q.active <==> i in r.active) && (SettledAs(r, i, Stopped, now) ==> SettledAs(q, i, Stopped, now)))
  {
  }

  lemma {:induction false} StopAllRejects(r: Registry, now: real, n: nat, i: nat)
    requires n <= |r.waiters| && i < |r.waiters| && i in r.active
    ensures var q := StopAll(r, now, n);
      |q.waiters| == |r.waiters| && if i < n then SettledAs(q, i, Stopped, now) else i in q.active
  {
    if n > 0 {
      StopAllRejects(r, now, n - 1, i);
      StopOneRejects(StopAll(r, now, n - 1), now, n - 1, i);
    }
  }

  lemma StopRejects(ms: seq<Moment>, now: real, i: nat)
    requires Run(Fresh, ms) && i in After(Fresh, ms).active
    ensures SettledAs(Next(After(Fresh, ms), now, StopCalled), i, Stopped, now)
  {
    RunKeepsSound(Fresh, ms);
    var r := After(Fresh, ms);
    StopAllRejects(r.(stopped := true), now, |r.waiters|, i);
  }
}
