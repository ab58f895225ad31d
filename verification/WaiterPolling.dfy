/** The registry refines a poll of its own for every request: whatever races, a waiter settles at
    most once, and with the outcome a plain poll over the reads it saw would have had. */
module WaiterPolling {
  import opened Options
  import opened Waiters

  /** The reference: poll until a terminal or missing row, or until the budget is gone. A zero
      budget reads once. */
  function Poll(w: Waiter, seen: seq<Observation>, expired: bool): Option<Outcome> {
    if seen == [] then None
    else if seen[0].Missing? then Some(NotFound)
    else if Terminal(seen[0].row.status) then Some(Result(seen[0].row))
    else if w.budget == Some(0.0) then Some(Latest(seen[0].row.status))
    else if |seen| > 1 then Poll(w, seen[1..], expired)
    else if expired then Some(TimeoutOutcome(w, seen[0].row.status))
    else None
  }

  lemma {:induction false} PollOneMore(w: Waiter, seen: seq<Observation>, reply: Observation, expired: bool)
    requires Poll(w, seen, false) == None
    ensures Poll(w, seen + [reply], expired) == Poll(w, [reply], expired)
  {
    if seen == [] {
      assert seen + [reply] == [reply];
    } else {
      assert (seen + [reply])[0] == seen[0] && (seen + [reply])[1..] == seen[1..] + [reply];
      PollOneMore(w, seen[1..], reply, expired);
    }
  }

  lemma {:induction false} PollExpires(w: Waiter, seen: seq<Observation>)
    requires Poll(w, seen, false) == None && seen != []
    ensures var last := seen[|seen| - 1];
      last.Found? && !Terminal(last.row.status) && Poll(w, seen, true) == Some(TimeoutOutcome(w, last.row.status))
  {
    if |seen| > 1 {
      PollExpires(w, seen[1..]);
    }
  }

  /* ---- the invariant, waiter by waiter ---- */

  /** While it waits, a poll over the same reads would still be polling; a parked waiter knows the
      last status it saw, and with a finite budget it has a deadline and a timer running. */
  predicate Undecided(w: Waiter, parked: bool) {
    && Poll(w, w.seen, false) == None
    && (parked <==> w.seen != [])
    && (parked ==> Parked(w))
    && (!parked ==> w.armed == 0)
    && (w.timer.Some? <==> parked && w.budget.Some?)
    && (w.timer.Some? ==> 1 <= w.timer.value.delay <= MAX_TIMER_MS)
  }

  predicate Parked(w: Waiter) {
    && Poll(w, w.seen, false) == None && w.seen != []
    && w.readAt.Some? && w.budget != Some(0.0)
    && w.seen[|w.seen| - 1].Found? && w.lastStatus == Some(w.seen[|w.seen| - 1].row.status)
    && w.deadline == (if w.budget.Some? then Some(w.readAt.value + w.budget.value) else None)
  }

  /** A settled waiter was cut off from outside, or has the outcome of the poll; a timeout is
      never earlier than the initial read plus the budget. */
  predicate Justified(w: Waiter, s: Settlement, stopped: bool) {
    match s.outcome
    case Aborted => true
    case Stopped => stopped
    case ReadFailed => w.seen == []
    case Result(_) => Some(s.outcome) == Poll(w, w.seen, false)
    case NotFound => Some(s.outcome) == Poll(w, w.seen, false)
    case Latest(_) => TimeIsUp(w, s)
    case TimedOut(_) => TimeIsUp(w, s)
  }

  predicate TimeIsUp(w: Waiter, s: Settlement) {
    if w.budget == Some(0.0) then Some(s.outcome) == Poll(w, w.seen, false)
    else
      && Some(s.outcome) == Poll(w, w.seen, true)
      && w.readAt.Some? && w.budget.Some? && w.readAt.value + w.budget.value <= s.at
  }

  predicate WaiterSound(r: Registry, i: nat)
    requires i < |r.waiters|
  {
    if i in r.active then
      && i !in r.settled
      && Undecided(r.waiters[i], IsPending(r, i))
      && (IsPending(r, i) <==> i !in r.reading)
    else
      && i in r.settled && !IsPending(r, i)
      && r.waiters[i].timer.None? && !r.waiters[i].listening
      && Justified(r.waiters[i], r.settled[i], r.stopped)
  }

  predicate Roomed(r: Registry, run: RunId)
    requires run in r.pending
  {
    && r.pending[run].members != {} && r.pending[run].id < r.rooms
    && forall i :: i in r.pending[run].members ==> i < |r.waiters| && r.waiters[i].runId == run
  }

  ghost predicate Shaped(r: Registry) {
    && (forall run :: run in r.pending ==> Roomed(r, run))
    && (forall i :: i in r.active || i in r.settled || i in r.reading ==> i < |r.waiters|)
  }

  ghost predicate AllSound(r: Registry) {
    Shaped(r) && forall i :: 0 <= i < |r.waiters| ==> WaiterSound(r, i)
  }

  ghost predicate Sound(r: Registry) {
    AllSound(r) && (r.stopped ==> r.active == {})
  }

  ghost predicate SoundBut(r: Registry, i: nat) {
    Shaped(r) && forall k :: 0 <= k < |r.waiters| && k != i ==> WaiterSound(r, k)
  }

  /** A step that settles waiter `i` or moves it on leaves every other waiter alone. */
  ghost predicate Touches(r: Registry, q: Registry, i: nat) {
    && |q.waiters| == |r.waiters| && q.stopped == r.stopped && q.active <= r.active
    && (forall k :: k in r.settled ==> k in q.settled && q.settled[k] == r.settled[k])
    && (forall k :: 0 <= k < |r.waiters| ==> q.waiters[k].runId == r.waiters[k].runId)
    && (forall k :: 0 <= k < |r.waiters| && k != i ==>
          q.waiters[k] == r.waiters[k] && (IsPending(q, k) <==> IsPending(r, k)) && (k in q.active <==> k in r.active))
  }

  lemma LeaveRoom(r: Registry, q: Registry, i: nat)
    requires Shaped(r) && i < |r.waiters| && |q.waiters| == |r.waiters|
    requires forall k :: 0 <= k < |r.waiters| ==> q.waiters[k].runId == r.waiters[k].runId
    requires q.pending == Leave(r.pending, r.waiters[i].runId, i) && q.rooms == r.rooms
    ensures forall run :: run in q.pending ==> Roomed(q, run)
    ensures !IsPending(q, i)
    ensures forall k :: 0 <= k < |r.waiters| && k != i ==> (IsPending(q, k) <==> IsPending(r, k))
  {
    forall run | run in q.pending ensures Roomed(q, run) {
      assert Roomed(r, run);
    }
    var here := r.waiters[i].runId;
    forall k | 0 <= k < |r.waiters| && k != i ensures IsPending(q, k) <==> IsPending(r, k) {
      if here in r.pending && r.waiters[k].runId == here {
        assert k in r.pending[here].members <==> k in r.pending[here].members - {i};
      }
    }
  }

  lemma SettleKeeps(r: Registry, now: real, i: nat, seen: seq<Observation>, outcome: Outcome)
    requires SoundBut(r, i) && i < |r.waiters|
    requires if i in r.active
             then i !in r.settled && Justified(r.waiters[i].(seen := seen), Settlement(outcome, now), r.stopped)
             else WaiterSound(r, i)
    ensures AllSound(Settle(r, now, i, seen, outcome)) && Touches(r, Settle(r, now, i, seen, outcome), i)
    ensures i !in Settle(r, now, i, seen, outcome).active
  {
    var q := Settle(r, now, i, seen, outcome);
    if i in r.active {
      LeaveRoom(r, q, i);
      JustifiedBySeen(r.waiters[i].(seen := seen), q.waiters[i], q.settled[i], r.stopped);
      forall k | 0 <= k < |q.waiters| ensures WaiterSound(q, k) {
        assert k != i ==> WaiterSound(r, k);
      }
    } else {
      forall k | 0 <= k < |q.waiters| ensures WaiterSound(q, k) {
        assert k != i ==> WaiterSound(r, k);
      }
    }
  }

  /** A verdict depends on the budget, the flag and the reads alone. */
  lemma {:induction false} PollBySeen(w: Waiter, v: Waiter, seen: seq<Observation>, expired: bool)
    requires w.budget == v.budget && w.throwOnTimeout == v.throwOnTimeout
    ensures Poll(w, seen, expired) == Poll(v, seen, expired)
  {
    if seen != [] { PollBySeen(w, v, seen[1..], expired); }
  }

  lemma JustifiedBySeen(w: Waiter, v: Waiter, s: Settlement, stopped: bool)
    requires w.budget == v.budget && w.throwOnTimeout == v.throwOnTimeout && w.seen == v.seen && w.readAt == v.readAt
    requires Justified(w, s, stopped)
    ensures Justified(v, s, stopped)
  {
    PollBySeen(w, v, w.seen, false);
    PollBySeen(w, v, w.seen, true);
  }

  lemma TimeoutKeeps(r: Registry, now: real, i: nat)
    requires SoundBut(r, i) && i < |r.waiters| && i in r.active && i !in r.settled
    requires Parked(r.waiters[i]) && Expired(r.waiters[i], now)
    ensures AllSound(SettleTimeout(r, now, i)) && Touches(r, SettleTimeout(r, now, i), i)
    ensures i !in SettleTimeout(r, now, i).active
  {
    var w := r.waiters[i];
    PollExpires(w, w.seen);
    SettleKeeps(r, now, i, w.seen, TimeoutOutcome(w, w.lastStatus.value));
  }

  /* ---- each transition ---- */

  /** Writing to one waiter, or ending its initial read, leaves the others sound. */
  lemma WriteKeepsOthers(r: Registry, q: Registry, i: nat)
    requires SoundBut(r, i) && i < |r.waiters|
    requires q == r.(waiters := q.waiters, reading := q.reading)
    requires |q.waiters| == |r.waiters| && q.waiters == r.waiters[i := q.waiters[i]]
    requires q.waiters[i].runId == r.waiters[i].runId && (q.reading == r.reading || q.reading == r.reading - {i})
    ensures SoundBut(q, i)
    ensures forall k :: 0 <= k < |r.waiters| ==> (IsPending(q, k) <==> IsPending(r, k))
  {
    forall run | run in q.pending ensures Roomed(q, run) {
      assert Roomed(r, run);
    }
    forall k | 0 <= k < |q.waiters| && k != i ensures WaiterSound(q, k) {
      assert WaiterSound(r, k);
    }
  }

  /** Setting the next timer of a parked waiter. */
  lemma TimerKeeps(r: Registry, q: Registry, i: nat, t: Timer)
    requires SoundBut(r, i) && i < |r.waiters| && i in r.active && i !in r.settled && i !in r.reading && IsPending(r, i)
    requires Parked(r.waiters[i]) && r.waiters[i].budget.Some? && 1 <= t.delay <= MAX_TIMER_MS
    requires q == r.(waiters := r.waiters[i := r.waiters[i].(timer := Some(t), armed := r.waiters[i].armed + 1)])
    ensures AllSound(q) && Touches(r, q, i)
  {
    PollBySeen(r.waiters[i], q.waiters[i], r.waiters[i].seen, false);
    WriteKeepsOthers(r, q, i);
    assert Parked(q.waiters[i]) && WaiterSound(q, i);
  }

  lemma ArmKeeps(r: Registry, now: real, i: nat)
    requires SoundBut(r, i) && i < |r.waiters| && i in r.active && i !in r.settled && i !in r.reading && IsPending(r, i)
    requires Parked(r.waiters[i]) && r.waiters[i].timer.None?
    ensures AllSound(ArmDeadline(r, now, i)) && Touches(r, ArmDeadline(r, now, i), i)
  {
    var w := r.waiters[i];
    if w.deadline.None? {
      WriteKeepsOthers(r, r, i);
      assert WaiterSound(r, i);
    } else if w.deadline.value <= now {
      TimeoutKeeps(r, now, i);
    } else {
      TimerKeeps(r, ArmDeadline(r, now, i), i, Timer(now, Chunk(w.deadline.value - now)));
    }
  }

  lemma EnterRoom(r: Registry, i: nat)
    requires Shaped(r) && i < |r.waiters| && !IsPending(r, i)
    ensures Shaped(Enter(r, i)) && IsPending(Enter(r, i), i)
    ensures forall k :: 0 <= k < |r.waiters| && k != i ==> (IsPending(Enter(r, i), k) <==> IsPending(r, k))
  {
    var q := Enter(r, i);
    forall run | run in q.pending ensures Roomed(q, run) {
      assert run in r.pending ==> Roomed(r, run);
    }
  }

  lemma EnterKeeps(r: Registry, i: nat)
    requires SoundBut(r, i) && i < |r.waiters| && !IsPending(r, i)
    ensures SoundBut(Enter(r, i), i) && IsPending(Enter(r, i), i) && Touches(r, Enter(r, i), i)
  {
    var q := Enter(r, i);
    EnterRoom(r, i);
    forall k | 0 <= k < |q.waiters| && k != i ensures WaiterSound(q, k) {
      assert WaiterSound(r, k);
    }
  }

  lemma ParkKeeps(r: Registry, now: real, i: nat, row: RunRead)
    requires SoundBut(r, i) && i < |r.waiters| && i in r.active && i !in r.settled && i !in r.reading && !IsPending(r, i)
    requires Undecided(r.waiters[i], false) && r.waiters[i].budget != Some(0.0) && !Terminal(row.status)
    ensures AllSound(Park(r, now, i, row)) && Touches(r, Park(r, now, i, row), i)
  {
    var m := r.(waiters := r.waiters[i := FirstStatus(r.waiters[i], now, row)]);
    var q := Enter(m, i);
    FirstStatusParks(r.waiters[i], now, row);
    WriteKeepsOthers(r, m, i);
    EnterKeeps(m, i);
    ArmKeeps(q, now, i);
    Touching(r, m, q, i);
    Touching(r, q, ArmDeadline(q, now, i), i);
  }

  lemma Touching(r: Registry, m: Registry, q: Registry, i: nat)
    requires Touches(r, m, i) && Touches(m, q, i)
    ensures Touches(r, q, i)
  {
    assert forall k :: 0 <= k < |r.waiters| && k != i ==>
      q.waiters[k] == m.waiters[k] && (IsPending(q, k) <==> IsPending(m, k)) && (k in q.active <==> k in m.active);
  }

  lemma FirstStatusParks(w: Waiter, now: real, row: RunRead)
    requires w.seen == [] && w.budget != Some(0.0) && !Terminal(row.status)
    ensures Parked(FirstStatus(w, now, row))
  {
    assert FirstStatus(w, now, row).seen == [Found(row)];
  }

  lemma InitialKeeps(r: Registry, now: real, i: nat, result: ReadResult)
    requires AllSound(r) && i < |r.waiters| && i in r.reading
    ensures AllSound(InitialRead(r, now, i, result)) && Touches(r, InitialRead(r, now, i, result), i)
  {
    var q := r.(reading := r.reading - {i});
    WriteKeepsOthers(r, q, i);
    assert WaiterSound(r, i);
    if i in r.active {
      FirstReadKeeps(q, now, i, result);
    } else {
      assert WaiterSound(q, i);
    }
  }

  lemma FirstReadKeeps(q: Registry, now: real, i: nat, result: ReadResult)
    requires SoundBut(q, i) && i < |q.waiters| && i in q.active && i !in q.settled && i !in q.reading && !IsPending(q, i)
    requires Undecided(q.waiters[i], false)
    ensures AllSound(FirstRead(q, now, i, result)) && Touches(q, FirstRead(q, now, i, result), i)
  {
    var w := q.waiters[i];
    if result.ReadError? {
      SettleKeeps(q, now, i, w.seen, ReadFailed);
    } else {
      var reply := result.reply;
      var v := w.(seen := w.seen + [reply]);
      assert v.seen == [reply];
      if reply.Missing? {
        SettleKeeps(q, now, i, v.seen, NotFound);
      } else if Terminal(reply.row.status) {
        SettleKeeps(q, now, i, v.seen, Result(reply.row));
      } else if w.budget == Some(0.0) {
        SettleKeeps(q, now, i, v.seen, Latest(reply.row.status));
      } else {
        ParkKeeps(q, now, i, reply.row);
      }
    }
  }

  lemma ObserveParked(w: Waiter, row: RunRead)
    requires Parked(w) && !Terminal(row.status)
    ensures Parked(w.(lastStatus := Some(row.status), seen := w.seen + [Found(row)]))
  {
    var v := w.(lastStatus := Some(row.status), seen := w.seen + [Found(row)]);
    PollOneMore(w, w.seen, Found(row), false);
    PollBySeen(w, v, v.seen, false);
  }

  /** Noting a row at one pending waiter breaks nothing elsewhere. */
  lemma ObserveKeepsOthers(r: Registry, i: nat, row: RunRead)
    requires AllSound(r) && IsPending(r, i)
    ensures var q := Observe(r, i, row);
      && SoundBut(q, i) && Touches(r, q, i) && IsPending(q, i)
      && (!Terminal(row.status) ==> AllSound(q) && Parked(q.waiters[i]))
  {
    var q := Observe(r, i, row);
    forall run | run in q.pending ensures Roomed(q, run) {
      assert Roomed(r, run);
    }
    forall k | 0 <= k < |q.waiters| && k != i ensures WaiterSound(q, k) {
      assert WaiterSound(r, k) && (IsPending(q, k) <==> IsPending(r, k));
    }
    if !Terminal(row.status) {
      assert WaiterSound(r, i);
      ObserveParked(r.waiters[i], row);
    }
  }

  lemma DecisiveReply(w: Waiter, reply: Observation)
    requires Parked(w) && (reply.Missing? || Terminal(reply.row.status))
    ensures Justified(w.(seen := w.seen + [reply]),
                      Settlement(if reply.Missing? then NotFound else Result(reply.row), 0.0), false)
  {
    PollOneMore(w, w.seen, reply, false);
    PollBySeen(w, w.(seen := w.seen + [reply]), w.seen + [reply], false);
  }

  lemma ResolveOneKeeps(r: Registry, now: real, reply: Observation, i: nat)
    requires AllSound(r)
    ensures AllSound(ResolveOne(r, now, reply, i)) && Touches(r, ResolveOne(r, now, reply, i), i)
    ensures reply.Missing? || Terminal(reply.row.status) ==> !IsPending(ResolveOne(r, now, reply, i), i)
  {
    if IsPending(r, i) {
      assert WaiterSound(r, i);
      var w := r.waiters[i];
      if reply.Missing? {
        DecisiveReply(w, reply);
        SettleKeeps(r, now, i, w.seen + [Missing], NotFound);
      } else if Terminal(reply.row.status) {
        DecisiveReply(w, reply);
        SettleKeeps(r, now, i, w.seen + [reply], Result(reply.row));
      } else {
        ObserveKeepsOthers(r, i, reply.row);
      }
    }
  }

  lemma SweepRowKeeps(r: Registry, now: real, i: nat, row: RunRead)
    requires AllSound(r) && IsPending(r, i)
    ensures var q := Observe(r, i, row);
      if Terminal(row.status) then
        var t := Settle(q, now, i, r.waiters[i].seen + [Found(row)], Result(row));
        AllSound(t) && Touches(q, t, i) && i !in t.active
      else Expired(r.waiters[i], now) ==> AllSound(SettleTimeout(q, now, i)) && Touches(q, SettleTimeout(q, now, i), i)
  {
    assert WaiterSound(r, i);
    var w, q := r.waiters[i], Observe(r, i, row);
    ObserveKeepsOthers(r, i, row);
    if Terminal(row.status) {
      DecisiveReply(w, Found(row));
      JustifiedBySeen(w.(seen := w.seen + [Found(row)]), q.waiters[i], Settlement(Result(row), now), r.stopped);
      SettleKeeps(q, now, i, w.seen + [Found(row)], Result(row));
    } else if Expired(w, now) {
      TimeoutKeeps(q, now, i);
    }
  }

  lemma SweepOneKeeps(r: Registry, now: real, rows: map<RunId, RunRead>, i: nat)
    requires AllSound(r)
    ensures AllSound(SweepOne(r, now, rows, i)) && Touches(r, SweepOne(r, now, rows, i), i)
    ensures IsPending(r, i) && (r.waiters[i].runId in rows ==> Terminal(rows[r.waiters[i].runId].status))
            ==> !IsPending(SweepOne(r, now, rows, i), i)
  {
    if IsPending(r, i) {
      var w, q := r.waiters[i], SweepOne(r, now, rows, i);
      if w.runId !in rows {
        assert WaiterSound(r, i);
        DecisiveReply(w, Missing);
        SettleKeeps(r, now, i, w.seen + [Missing], NotFound);
      } else {
        var m := Observe(r, i, rows[w.runId]);
        ObserveKeepsOthers(r, i, rows[w.runId]);
        SweepRowKeeps(r, now, i, rows[w.runId]);
        if q != m { Touching(r, m, q, i); }
      }
      if i !in q.active { assert WaiterSound(q, i); }
    }
  }

  /* ---- the loops ---- */

  /** Nothing new: no waiter appears, none becomes active, no settlement changes. */
  ghost predicate Winds(r: Registry, q: Registry) {
    && |q.waiters| == |r.waiters| && q.stopped == r.stopped && q.active <= r.active
    && (forall k :: k in r.settled ==> k in q.settled && q.settled[k] == r.settled[k])
    && (forall k :: 0 <= k < |r.waiters| ==> q.waiters[k].runId == r.waiters[k].runId)
  }

  lemma {:induction false} ResolveAllKeeps(r: Registry, now: real, reply: Observation, entries: seq<nat>)
    requires AllSound(r)
    ensures AllSound(ResolveAll(r, now, reply, entries)) && Winds(r, ResolveAll(r, now, reply, entries))
    ensures reply.Missing? || Terminal(reply.row.status) ==>
      forall k :: k in entries ==> !IsPending(ResolveAll(r, now, reply, entries), k)
  {
    if entries != [] {
      var rest, i := entries[..|entries| - 1], entries[|entries| - 1];
      ResolveAllKeeps(r, now, reply, rest);
      var m := ResolveAll(r, now, reply, rest);
      ResolveOneKeeps(m, now, reply, i);
      assert entries == rest + [i];
      var q := ResolveOne(m, now, reply, i);
      forall k | k in rest && (reply.Missing? || Terminal(reply.row.status)) ensures !IsPending(q, k) {
        assert !IsPending(m, k);
      }
    }
  }

  /** What a sweep's answer says about a run is final: a terminal row, or no row. */
  predicate Final(rows: map<RunId, RunRead>, run: RunId) {
    run in rows ==> Terminal(rows[run].status)
  }

  lemma {:induction false} SweepAllKeeps(r: Registry, now: real, rows: map<RunId, RunRead>, entries: seq<nat>)
    requires AllSound(r)
    ensures AllSound(SweepAll(r, now, rows, entries)) && Winds(r, SweepAll(r, now, rows, entries))
    ensures forall k :: k in entries && k < |r.waiters| && Final(rows, r.waiters[k].runId) ==>
      !IsPending(SweepAll(r, now, rows, entries), k)
  {
    if entries != [] {
      var rest, i := entries[..|entries| - 1], entries[|entries| - 1];
      SweepAllKeeps(r, now, rows, rest);
      var m := SweepAll(r, now, rows, rest);
      SweepOneKeeps(m, now, rows, i);
      assert entries == rest + [i];
      var q := SweepOne(m, now, rows, i);
      forall k | k in entries && k < |r.waiters| && Final(rows, r.waiters[k].runId) ensures !IsPending(q, k) {
        if k in rest { assert !IsPending(m, k); }
      }
    }
  }

  lemma {:induction false} StopAllKeeps(r: Registry, now: real, n: nat)
    requires AllSound(r) && r.stopped && n <= |r.waiters|
    ensures AllSound(StopAll(r, now, n)) && Winds(r, StopAll(r, now, n))
    ensures forall k :: k in StopAll(r, now, n).active ==> n <= k
  {
    if n > 0 {
      StopAllKeeps(r, now, n - 1);
      var q := StopAll(r, now, n - 1);
      assert WaiterSound(q, n - 1);
      SettleKeeps(q, now, n - 1, q.waiters[n - 1].seen, Stopped);
    }
  }

  /* ---- the run ---- */

  lemma RegisterKeeps(r: Registry, run: RunId, timeout: Timeout, throwOnTimeout: bool, signal: bool, aborted: bool)
    requires Sound(r)
    ensures Sound(Register(r, run, timeout, throwOnTimeout, signal, aborted))
  {
    var q := Register(r, run, timeout, throwOnTimeout, signal, aborted);
    forall run | run in q.pending ensures Roomed(q, run) {
      assert Roomed(r, run);
    }
    forall k | 0 <= k < |q.waiters| ensures WaiterSound(q, k) {
      if k < |r.waiters| {
        assert WaiterSound(r, k);
      }
    }
  }

  /** The bookkeeping of reads in flight bears on no waiter. */
  lemma TicketsKeep(r: Registry, q: Registry)
    requires AllSound(r) && q == r.(resolving := q.resolving, sweeping := q.sweeping, stopped := q.stopped)
    requires r.stopped ==> q.stopped
    ensures AllSound(q)
  {
    forall run | run in q.pending ensures Roomed(q, run) {
      assert Roomed(r, run);
    }
    forall k | 0 <= k < |q.waiters| ensures WaiterSound(q, k) {
      assert WaiterSound(r, k);
    }
  }

  lemma DeadlineKeeps(r: Registry, now: real, i: nat)
    requires Sound(r) && Enabled(r, DeadlineFired(i))
    ensures Sound(Next(r, now, DeadlineFired(i))) && Winds(r, Next(r, now, DeadlineFired(i)))
  {
    assert WaiterSound(r, i);
    var w := r.waiters[i].(timer := None);
    var q := r.(waiters := r.waiters[i := w]);
    PollBySeen(r.waiters[i], w, w.seen, false);
    WriteKeepsOthers(r, q, i);
    ArmKeeps(q, now, i);
  }

  lemma NextKeepsSound(r: Registry, now: real, e: Event)
    requires Sound(r) && Enabled(r, e)
    ensures Sound(Next(r, now, e))
    ensures forall k :: k in r.settled ==> k in Next(r, now, e).settled && Next(r, now, e).settled[k] == r.settled[k]
    ensures r.stopped ==> Next(r, now, e).stopped && |Next(r, now, e).waiters| == |r.waiters|
  {
    match e
    case Registered(run, timeout, throwOnTimeout, signal, aborted) =>
      RegisterKeeps(r, run, timeout, throwOnTimeout, signal, aborted);
    case InitialReadReturned(i, result) => InitialKeeps(r, now, i, result);
    case TerminalNotified(run) => TicketsKeep(r, Next(r, now, e));
    case ResolveReadReturned(t, result, entries) =>
      var q := r.(resolving := r.resolving - multiset{t});
      TicketsKeep(r, q);
      if result.Read? { ResolveAllKeeps(q, now, result.reply, entries); }
    case PollTick(entries) => TicketsKeep(r, Next(r, now, e));
    case SweepReturned(rows) =>
      var q := r.(sweeping := None);
      TicketsKeep(r, q);
      if rows.Some? { SweepAllKeeps(q, now, rows.value, r.sweeping.value); }
    case DeadlineFired(i) => DeadlineKeeps(r, now, i);
    case SignalAborted(i) =>
      assert WaiterSound(r, i);
      SettleKeeps(r, now, i, r.waiters[i].seen, Aborted);
    case StopCalled =>
      var q := r.(stopped := true);
      TicketsKeep(r, q);
      StopAllKeeps(q, now, |r.waiters|);
  }

  lemma {:induction false} RunKeepsSound(r: Registry, ms: seq<Moment>)
    requires Sound(r) && Run(r, ms)
    ensures Sound(After(r, ms))
    ensures forall k :: k in r.settled ==> k in After(r, ms).settled && After(r, ms).settled[k] == r.settled[k]
    ensures r.stopped ==> After(r, ms).stopped && |After(r, ms).waiters| == |r.waiters|
    decreases ms
  {
    if ms != [] {
      NextKeepsSound(r, ms[0].now, ms[0].event);
      RunKeepsSound(Next(r, ms[0].now, ms[0].event), ms[1..]);
    }
  }

  /* ---- the promises ---- */

  /** A registered waiter settles at most once: what it was settled with never changes, and it is
      never active or pending again. */
  lemma SettlesAtMostOnce(ms: seq<Moment>, ns: seq<Moment>, i: nat)
    requires Run(Fresh, ms) && Run(After(Fresh, ms), ns) && i in After(Fresh, ms).settled
    ensures var q := After(After(Fresh, ms), ns);
      && i in q.settled && q.settled[i] == After(Fresh, ms).settled[i]
      && i !in q.active && !IsPending(q, i)
  {
    RunKeepsSound(Fresh, ms);
    RunKeepsSound(After(Fresh, ms), ns);
    assert WaiterSound(After(After(Fresh, ms), ns), i);
  }

  /** No waiter is ever lost: it is settled, or in its initial read, or pending; a pending one is
      active, and with a finite budget its next deadline timer is running and fits the timer range. */
  lemma NoWaiterIsLost(ms: seq<Moment>, i: nat)
    requires Run(Fresh, ms) && i < |After(Fresh, ms).waiters|
    ensures var r := After(Fresh, ms);
      && (i in r.active <==> i !in r.settled)
      && (i in r.active ==> (i in r.reading <==> !IsPending(r, i)))
      && (IsPending(r, i) ==> i in r.active && (r.waiters[i].budget.Some? <==> r.waiters[i].timer.Some?))
      && (r.waiters[i].timer.Some? ==> IsPending(r, i) && 1 <= r.waiters[i].timer.value.delay <= 2147483647)
  {
    RunKeepsSound(Fresh, ms);
    assert WaiterSound(After(Fresh, ms), i);
  }

  lemma {:induction false} PollMeans(w: Waiter, seen: seq<Observation>, expired: bool)
    ensures match Poll(w, seen, expired)
      case None => true
      case Some(NotFound) => Missing in seen
      case Some(Result(row)) => Terminal(row.status) && Found(row) in seen
      case Some(Latest(status)) => !Terminal(status) && exists row :: Found(row) in seen && row.status == status
      case Some(TimedOut(status)) => !Terminal(status) && exists row :: Found(row) in seen && row.status == status
      case Some(_) => false
  {
    if seen != [] {
      PollMeans(w, seen[1..], expired);
      assert seen[0] in seen && forall x :: x in seen[1..] ==> x in seen;
      if seen[0].Found? { assert Found(seen[0].row) in seen; }
    }
  }

  predicate FromOutside(o: Outcome) {
    o.Aborted? || o.Stopped? || o.ReadFailed?
  }

  /** Unless it was cut off from outside, a waiter gets what a poll of its own over the same reads
      would have got; a timeout carries the latest non-terminal status and is never early. */
  lemma SettlesAsThePollWould(ms: seq<Moment>, i: nat)
    requires Run(Fresh, ms) && i in After(Fresh, ms).settled
    ensures i < |After(Fresh, ms).waiters|
    ensures var r := After(Fresh, ms); var w, s := r.waiters[i], r.settled[i];
      && (!FromOutside(s.outcome) ==>
            Some(s.outcome) == Poll(w, w.seen, (s.outcome.Latest? || s.outcome.TimedOut?) && w.budget != Some(0.0)))
      && (s.outcome.Result? ==> Terminal(s.outcome.row.status) && Found(s.outcome.row) in w.seen)
      && (s.outcome.NotFound? ==> Missing in w.seen)
      && (s.outcome.Latest? || s.outcome.TimedOut? ==>
            && !Terminal(s.outcome.status) && (exists row :: Found(row) in w.seen && row.status == s.outcome.status)
            && w.budget.Some?
            && (w.budget != Some(0.0) ==> w.readAt.Some? && w.readAt.value + w.budget.value <= s.at))
      && (s.outcome.Stopped? ==> r.stopped) && (s.outcome.ReadFailed? ==> w.seen == [])
  {
    RunKeepsSound(Fresh, ms);
    var r := After(Fresh, ms);
    assert WaiterSound(r, i);
    PollMeans(r.waiters[i], r.waiters[i].seen, false);
    PollMeans(r.waiters[i], r.waiters[i].seen, true);
  }

  /** A sweep that reads a run as terminal, or gone, leaves none of the waiters it started with. */
  lemma SweepLeavesNone(ms: seq<Moment>, now: real, rows: map<RunId, RunRead>, i: nat)
    requires Run(Fresh, ms) && After(Fresh, ms).sweeping.Some?
    requires i in After(Fresh, ms).sweeping.value && i < |After(Fresh, ms).waiters|
    requires Final(rows, After(Fresh, ms).waiters[i].runId)
    ensures var q := Next(After(Fresh, ms), now, SweepReturned(Some(rows)));
      !IsPending(q, i) && (i in q.active ==> i in q.reading)
  {
    RunKeepsSound(Fresh, ms);
    var r := After(Fresh, ms);
    var m := r.(sweeping := None);
    TicketsKeep(r, m);
    SweepAllKeeps(m, now, rows, r.sweeping.value);
    assert WaiterSound(Next(r, now, SweepReturned(Some(rows))), i);
  }

  /** So does the read behind a notification, for every waiter then in the set it captured. */
  lemma NotificationLeavesNone(ms: seq<Moment>, now: real, t: Ticket, reply: Observation, entries: seq<nat>, i: nat)
    requires Run(Fresh, ms) && Enabled(After(Fresh, ms), ResolveReadReturned(t, Read(reply), entries))
    requires i in MembersOf(After(Fresh, ms), t) && (reply.Missing? || Terminal(reply.row.status))
    ensures !IsPending(Next(After(Fresh, ms), now, ResolveReadReturned(t, Read(reply), entries)), i)
  {
    RunKeepsSound(Fresh, ms);
    var r := After(Fresh, ms);
    var m := r.(resolving := r.resolving - multiset{t});
    TicketsKeep(r, m);
    ResolveAllKeeps(m, now, reply, entries);
  }

  /** After stop every waiter there ever was is settled, and none is ever active or pending again. */
  lemma NothingAfterStop(ms: seq<Moment>, now: real, ns: seq<Moment>)
    requires Run(Fresh, ms) && Run(Next(After(Fresh, ms), now, StopCalled), ns)
    ensures var q := After(Next(After(Fresh, ms), now, StopCalled), ns);
      && q.active == {} && q.pending == map[] && |q.waiters| == |After(Fresh, ms).waiters|
      && (forall i :: 0 <= i < |q.waiters| ==> i in q.settled && q.waiters[i].timer.None? && !q.waiters[i].listening)
  {
    RunKeepsSound(Fresh, ms);
    var r := After(Fresh, ms);
    NextKeepsSound(r, now, StopCalled);
    StopStops(r, now, |r.waiters|);
    var s := Next(r, now, StopCalled);
    RunKeepsSound(s, ns);
    var q := After(s, ns);
    forall i | 0 <= i < |q.waiters|
      ensures i in q.settled && q.waiters[i].timer.None? && !q.waiters[i].listening && !IsPending(q, i)
    {
      assert WaiterSound(q, i);
    }
    forall run | run in q.pending ensures false {
      assert Roomed(q, run);
      var i :| i in q.pending[run].members;
      assert IsPending(q, i);
    }
  }

  lemma {:induction false} StopStops(r: Registry, now: real, n: nat)
    requires n <= |r.waiters|
    ensures var q := StopAll(r.(stopped := true), now, n); q.stopped && |q.waiters| == |r.waiters|
  {
    if n > 0 { StopStops(r, now, n - 1); }
  }

  /* ---- the deadline chain ---- */

  /** How many timers of the largest legal delay a stretch of time needs. */
  function Pieces(time: real): int {
    Ceil(time / 2147483647.0)
  }

  /** What a waiter has armed, and what the time left from its running timer may still need. */
  predicate Chained(w: Waiter) {
    (w.budget.Some? ==> w.budget.value >= 0.0) &&
    if w.readAt.None? || w.budget.None? then w.armed == 0 && w.timer.None?
    else
      && w.deadline == Some(w.readAt.value + w.budget.value)
      && w.armed <= Pieces(w.budget.value)
      && (w.timer.Some? ==>
            var left := w.deadline.value - w.timer.value.setAt;
            && left > 0.0 && w.timer.value.delay == Chunk(left)
            && w.armed - 1 + Pieces(left) <= Pieces(w.budget.value))
  }

  lemma PieceSpent(left: real, later: real)
    requires later > 0.0 && later <= left - Chunk(left) as real
    ensures Pieces(later) + 1 <= Pieces(left)
  {
    assert Chunk(left) == MAX_TIMER_MS;
    assert later / (MAX_TIMER_MS as real) <= left / (MAX_TIMER_MS as real) - 1.0;
  }

  /** A timer never fires before its delay has passed. */
  predicate OnTime(r: Registry, m: Moment) {
    m.event.DeadlineFired? && m.event.i < |r.waiters| && r.waiters[m.event.i].timer.Some? ==>
      var t := r.waiters[m.event.i].timer.value; t.setAt + t.delay as real <= m.now
  }

  predicate RunOnTime(r: Registry, ms: seq<Moment>)
    requires Run(r, ms)
    decreases ms
  {
    ms == [] || (OnTime(r, ms[0]) && RunOnTime(Next(r, ms[0].now, ms[0].event), ms[1..]))
  }

  ghost predicate AllChained(r: Registry) {
    forall i :: 0 <= i < |r.waiters| ==> Chained(r.waiters[i])
  }

  /** Settling or noting a status leaves every chain as it was, or stops it. */
  ghost predicate ChainsRest(r: Registry, q: Registry) {
    && |q.waiters| == |r.waiters|
    && forall i :: 0 <= i < |r.waiters| ==> ChainRests(r.waiters[i], q.waiters[i])
  }

  predicate ChainRests(w: Waiter, v: Waiter) {
    && v.runId == w.runId && v.budget == w.budget && v.throwOnTimeout == w.throwOnTimeout
    && v.readAt == w.readAt && v.deadline == w.deadline && v.armed == w.armed
    && (v.timer == w.timer || v.timer.None?)
  }

  lemma {:induction false} ResolveChains(r: Registry, now: real, reply: Observation, entries: seq<nat>)
    ensures ChainsRest(r, ResolveAll(r, now, reply, entries))
  {
    if entries != [] {
      ResolveChains(r, now, reply, entries[..|entries| - 1]);
    }
  }

  lemma SettleChains(r: Registry, now: real, i: nat, seen: seq<Observation>, outcome: Outcome)
    requires i < |r.waiters|
    ensures ChainsRest(r, Settle(r, now, i, seen, outcome))
  {
  }

  lemma SweepOneChains(r: Registry, now: real, rows: map<RunId, RunRead>, i: nat)
    ensures ChainsRest(r, SweepOne(r, now, rows, i))
  {
    if IsPending(r, i) {
      var w := r.waiters[i];
      if w.runId !in rows {
        SettleChains(r, now, i, w.seen + [Missing], NotFound);
      } else {
        var q := Observe(r, i, rows[w.runId]);
        var v := q.waiters[i];
        SettleChains(q, now, i, v.seen, Result(rows[w.runId]));
        SettleChains(q, now, i, v.seen, TimeoutOutcome(v, v.lastStatus.value));
      }
    }
  }

  lemma {:induction false} SweepChains(r: Registry, now: real, rows: map<RunId, RunRead>, entries: seq<nat>)
    ensures ChainsRest(r, SweepAll(r, now, rows, entries))
  {
    if entries != [] {
      var m := SweepAll(r, now, rows, entries[..|entries| - 1]);
      SweepChains(r, now, rows, entries[..|entries| - 1]);
      SweepOneChains(m, now, rows, entries[|entries| - 1]);
      RestsThrough(r, m, SweepOne(m, now, rows, entries[|entries| - 1]));
    }
  }

  lemma RestsThrough(r: Registry, m: Registry, q: Registry)
    requires ChainsRest(r, m) && ChainsRest(m, q)
    ensures ChainsRest(r, q)
  {
    forall i | 0 <= i < |r.waiters| ensures ChainRests(r.waiters[i], q.waiters[i]) {
      assert ChainRests(r.waiters[i], m.waiters[i]) && ChainRests(m.waiters[i], q.waiters[i]);
    }
  }

  lemma {:induction false} StopChains(r: Registry, now: real, n: nat)
    requires n <= |r.waiters|
    ensures ChainsRest(r, StopAll(r, now, n))
  {
    if n > 0 {
      StopChains(r, now, n - 1);
    }
  }

  /** The events that start no chain, touch no date of any waiter, and register none. */
  lemma LoopsRest(r: Registry, m: Moment)
    requires Enabled(r, m.event) && !m.event.InitialReadReturned? && !m.event.DeadlineFired? && !m.event.Registered?
    ensures ChainsRest(r, Next(r, m.now, m.event))
  {
    var q := Next(r, m.now, m.event);
    if m.event.StopCalled? {
      StopChains(r.(stopped := true), m.now, |r.waiters|);
    } else if m.event.SignalAborted? {
      SettleChains(r, m.now, m.event.i, r.waiters[m.event.i].seen, Aborted);
    } else if m.event.SweepReturned? && m.event.rows.Some? {
      SweepChains(r.(sweeping := None), m.now, m.event.rows.value, r.sweeping.value);
    } else if m.event.ResolveReadReturned? && m.event.result.Read? {
      ResolveChains(r.(resolving := r.resolving - multiset{m.event.ticket}), m.now, m.event.result.reply, m.event.entries);
    } else {
      assert q.waiters == r.waiters;
    }
  }

  lemma RestingChains(r: Registry, q: Registry)
    requires AllChained(r) && ChainsRest(r, q)
    ensures AllChained(q)
  {
    forall i | 0 <= i < |q.waiters| ensures Chained(q.waiters[i]) {
      assert Chained(r.waiters[i]) && ChainRests(r.waiters[i], q.waiters[i]);
    }
  }

  /** Whatever happens to one chain, if it stays sound so do they all. */
  lemma OneChain(r: Registry, q: Registry, i: nat)
    requires AllChained(r) && i < |q.waiters| && Chained(q.waiters[i])
    requires |q.waiters| == |r.waiters| || (i == |r.waiters| && |q.waiters| == i + 1)
    requires forall k :: 0 <= k < |q.waiters| && k != i ==> q.waiters[k] == r.waiters[k]
    ensures AllChained(q)
  {
    forall k | 0 <= k < |q.waiters| ensures Chained(q.waiters[k]) {
      if k != i { assert Chained(r.waiters[k]); }
    }
  }

  lemma ArmChains(r: Registry, now: real, i: nat)
    requires i < |r.waiters| && r.waiters[i].timer.None? && r.waiters[i].readAt.Some?
    requires r.waiters[i].budget.Some? ==>
      && r.waiters[i].deadline == Some(r.waiters[i].readAt.value + r.waiters[i].budget.value)
      && (r.waiters[i].deadline.value <= now ==> Chained(r.waiters[i]))
      && (r.waiters[i].deadline.value > now ==>
            r.waiters[i].budget.value > 0.0
            && r.waiters[i].armed + Pieces(r.waiters[i].deadline.value - now) <= Pieces(r.waiters[i].budget.value))
    requires r.waiters[i].budget.None? ==> r.waiters[i].deadline.None? && r.waiters[i].armed == 0
    requires r.waiters[i].budget.Some? ==> r.waiters[i].budget.value >= 0.0 && r.waiters[i].armed <= Pieces(r.waiters[i].budget.value)
    ensures Chained(ArmDeadline(r, now, i).waiters[i])
  {
    var w := r.waiters[i];
    if w.deadline.Some? && w.deadline.value > now {
      assert (w.deadline.value - now) / (MAX_TIMER_MS as real) > 0.0;
    }
  }

  lemma ArmOthers(r: Registry, now: real, i: nat)
    requires i < |r.waiters|
    ensures var q := ArmDeadline(r, now, i); |q.waiters| == |r.waiters| && q.waiters == r.waiters[i := q.waiters[i]]
  {
  }

  lemma FirstReadOthers(r: Registry, now: real, i: nat, result: ReadResult)
    requires i < |r.waiters|
    ensures var q := FirstRead(r, now, i, result); |q.waiters| == |r.waiters| && q.waiters == r.waiters[i := q.waiters[i]]
  {
    if result.Read? && result.reply.Found? {
      ArmOthers(Enter(r.(waiters := r.waiters[i := FirstStatus(r.waiters[i], now, result.reply.row)]), i), now, i);
    }
  }

  lemma InitialChains(r: Registry, now: real, i: nat, result: ReadResult)
    requires Sound(r) && AllChained(r) && i < |r.waiters| && i in r.reading
    ensures AllChained(InitialRead(r, now, i, result))
  {
    assert WaiterSound(r, i) && Chained(r.waiters[i]);
    if i in r.active {
      var m := r.(reading := r.reading - {i});
      FirstReadOthers(m, now, i, result);
      if result.Read? && result.reply.Found? { InitialRowChains(m, now, i, result.reply.row); }
      OneChain(r, FirstRead(m, now, i, result), i);
    }
  }

  lemma InitialRowChains(r: Registry, now: real, i: nat, row: RunRead)
    requires i < |r.waiters| && i in r.active && Undecided(r.waiters[i], false) && Chained(r.waiters[i])
    ensures Chained(FirstRead(r, now, i, Read(Found(row))).waiters[i])
  {
    if !Terminal(row.status) && r.waiters[i].budget != Some(0.0) {
      var m := r.(waiters := r.waiters[i := FirstStatus(r.waiters[i], now, row)]);
      ArmChains(Enter(m, i), now, i);
    }
  }

  lemma DeadlineChains(r: Registry, now: real, i: nat)
    requires Sound(r) && AllChained(r) && OnTime(r, Moment(now, DeadlineFired(i))) && Enabled(r, DeadlineFired(i))
    ensures AllChained(Next(r, now, DeadlineFired(i)))
  {
    var w := r.waiters[i];
    assert WaiterSound(r, i) && Chained(w);
    var left, later := w.deadline.value - w.timer.value.setAt, w.deadline.value - now;
    if later > 0.0 { PieceSpent(left, later); }
    ArmChains(r.(waiters := r.waiters[i := w.(timer := None)]), now, i);
    OneChain(r, Next(r, now, DeadlineFired(i)), i);
  }

  lemma NextKeepsChains(r: Registry, m: Moment)
    requires Sound(r) && AllChained(r) && Enabled(r, m.event) && OnTime(r, m)
    ensures AllChained(Next(r, m.now, m.event))
  {
    var q := Next(r, m.now, m.event);
    if m.event.Registered? {
      if q != r { OneChain(r, q, |r.waiters|); }
    } else if m.event.InitialReadReturned? {
      InitialChains(r, m.now, m.event.i, m.event.result);
    } else if m.event.DeadlineFired? {
      DeadlineChains(r, m.now, m.event.i);
    } else {
      LoopsRest(r, m);
      RestingChains(r, q);
    }
  }

  lemma {:induction false} RunKeepsChains(r: Registry, ms: seq<Moment>)
    requires Sound(r) && AllChained(r) && Run(r, ms) && RunOnTime(r, ms)
    ensures AllChained(After(r, ms))
    decreases ms
  {
    if ms != [] {
      NextKeepsSound(r, ms[0].now, ms[0].event);
      NextKeepsChains(r, ms[0]);
      RunKeepsChains(Next(r, ms[0].now, ms[0].event), ms[1..]);
    }
  }

  /** When timers fire no earlier than asked, a finite budget is waited out with at most as many
      timers as it has pieces of the largest delay: the chain ends. */
  lemma DeadlineChainEnds(ms: seq<Moment>, i: nat)
    requires Run(Fresh, ms) && RunOnTime(Fresh, ms) && i < |After(Fresh, ms).waiters|
    ensures var w := After(Fresh, ms).waiters[i];
      w.armed <= if w.budget.Some? then Pieces(w.budget.value) else 0
  {
    RunKeepsSound(Fresh, ms);
    RunKeepsChains(Fresh, ms);
    assert Chained(After(Fresh, ms).waiters[i]);
  }

  /* ---- when the budget starts ---- */

  /** A poll of one's own starts its budget when it is called. */
  function PollDeadline(called: real, budget: real): real {
    called + budget
  }

  /** The moment of a history at which waiter `i` was registered. */
  function CallOf(r: Registry, ms: seq<Moment>, i: nat): Option<Moment>
    requires Run(r, ms)
    decreases ms
  {
    if ms == [] then None
    else
      var q := Next(r, ms[0].now, ms[0].event);
      if |r.waiters| <= i < |q.waiters| then Some(ms[0]) else CallOf(q, ms[1..], i)
  }

  /** The waiter is the one its call asked for: the milliseconds given, 30 seconds if none are, no limit
      for Infinity; and a timeout thrown if it says so. */
  predicate AsCalled(call: Event, w: Waiter)
    requires call.Registered?
  {
    && w.throwOnTimeout == call.throwOnTimeout
    && match call.timeout
       case Milliseconds(ms) => w.budget == Some(ms) && ms >= 0.0
       case Absent => w.budget == Some(30000.0)
       case Forever => w.budget.None?
       case NotANumber => false
  }

  /** The clock never goes back. */
  predicate Monotone(from: real, ms: seq<Moment>)
    decreases ms
  {
    ms == [] || (from <= ms[0].now && Monotone(ms[0].now, ms[1..]))
  }

  /** There is a deadline once the initial read has shown a row still running: then it is that
      instant plus the budget. */
  predicate Dated(w: Waiter) {
    w.deadline == if w.readAt.Some? && w.budget.Some? then Some(w.readAt.value + w.budget.value) else None
  }

  /** One event changes the dates of a waiter only by its initial read, which is now. */
  predicate Dates(w: Waiter, v: Waiter, now: real) {
    && v.runId == w.runId && v.budget == w.budget && v.throwOnTimeout == w.throwOnTimeout
    && ((v.readAt == w.readAt && v.deadline == w.deadline) || (v.readAt == Some(now) && Dated(v)))
  }

  lemma RestingDates(r: Registry, q: Registry, i: nat, now: real)
    requires ChainsRest(r, q) && i < |r.waiters|
    ensures i < |q.waiters| && Dates(r.waiters[i], q.waiters[i], now)
  {
    assert ChainRests(r.waiters[i], q.waiters[i]);
  }

  lemma ArmDates(r: Registry, now: real, k: nat)
    requires k < |r.waiters|
    ensures var q := ArmDeadline(r, now, k);
      && |q.waiters| == |r.waiters|
      && (forall i :: 0 <= i < |r.waiters| ==>
            && q.waiters[i].runId == r.waiters[i].runId && q.waiters[i].budget == r.waiters[i].budget
            && q.waiters[i].throwOnTimeout == r.waiters[i].throwOnTimeout
            && q.waiters[i].readAt == r.waiters[i].readAt && q.waiters[i].deadline == r.waiters[i].deadline)
  {
  }

  lemma ParkDates(r: Registry, now: real, k: nat, row: RunRead, i: nat)
    requires k < |r.waiters| && i < |r.waiters|
    ensures var q := Park(r, now, k, row); |q.waiters| == |r.waiters| && Dates(r.waiters[i], q.waiters[i], now)
  {
    ArmDates(Enter(r.(waiters := r.waiters[k := FirstStatus(r.waiters[k], now, row)]), k), now, k);
  }

  lemma FirstDates(r: Registry, now: real, k: nat, result: ReadResult, i: nat)
    requires k < |r.waiters| && i < |r.waiters|
    ensures var q := FirstRead(r, now, k, result); |q.waiters| == |r.waiters| && Dates(r.waiters[i], q.waiters[i], now)
  {
    var q, w := FirstRead(r, now, k, result), r.waiters[k];
    if result.Read? && result.reply.Found? && !Terminal(result.reply.row.status) && w.budget != Some(0.0) {
      ParkDates(r, now, k, result.reply.row, i);
    } else {
      assert k in r.active ==> q.waiters == r.waiters[k := w.(timer := None, listening := false, seen := q.waiters[k].seen)];
    }
  }

  lemma NextDates(r: Registry, m: Moment, i: nat)
    requires Enabled(r, m.event) && i < |r.waiters|
    ensures var q := Next(r, m.now, m.event); i < |q.waiters| && Dates(r.waiters[i], q.waiters[i], m.now)
  {
    match m.event
    case InitialReadReturned(k, result) => FirstDates(r.(reading := r.reading - {k}), m.now, k, result, i);
    case DeadlineFired(k) => ArmDates(r.(waiters := r.waiters[k := r.waiters[k].(timer := None)]), m.now, k);
    case Registered(_, _, _, _, _) =>
    case _ =>
      LoopsRest(r, m);
      RestingDates(r, Next(r, m.now, m.event), i, m.now);
  }

  lemma {:induction false} RunDates(r: Registry, ms: seq<Moment>, i: nat)
    requires Run(r, ms) && i < |r.waiters| && Dated(r.waiters[i])
    ensures i < |After(r, ms).waiters| && Dated(After(r, ms).waiters[i])
    ensures After(r, ms).waiters[i].runId == r.waiters[i].runId && After(r, ms).waiters[i].budget == r.waiters[i].budget
    ensures After(r, ms).waiters[i].throwOnTimeout == r.waiters[i].throwOnTimeout
    decreases ms
  {
    if ms != [] {
      NextDates(r, ms[0], i);
      RunDates(Next(r, ms[0].now, ms[0].event), ms[1..], i);
    }
  }

  /** A waiter not read yet is read no earlier than now. */
  lemma {:induction false} ReadsLater(r: Registry, ms: seq<Moment>, i: nat, called: real, from: real)
    requires Run(r, ms) && Monotone(from, ms) && called <= from && i < |r.waiters|
    requires r.waiters[i].readAt.Some? ==> called <= r.waiters[i].readAt.value
    ensures i < |After(r, ms).waiters|
    ensures After(r, ms).waiters[i].readAt.Some? ==> called <= After(r, ms).waiters[i].readAt.value
    decreases ms
  {
    if ms != [] {
      NextDates(r, ms[0], i);
      ReadsLater(Next(r, ms[0].now, ms[0].event), ms[1..], i, called, ms[0].now);
    }
  }

  lemma {:induction false} CallFound(r: Registry, ms: seq<Moment>, i: nat, from: real)
    requires Run(r, ms) && |r.waiters| <= i < |After(r, ms).waiters|
    ensures var w, call := After(r, ms).waiters[i], CallOf(r, ms, i);
      && Dated(w)
      && call.Some? && call.value in ms && call.value.event.Registered?
      && call.value.event.run == w.runId && AsCalled(call.value.event, w)
      && (Monotone(from, ms) && w.readAt.Some? ==> call.value.now <= w.readAt.value)
    decreases ms
  {
    var m := ms[0];
    var q := Next(r, m.now, m.event);
    if i < |q.waiters| {
      WhoRegisters(r, m);
      RunDates(q, ms[1..], i);
      if Monotone(from, ms) { ReadsLater(q, ms[1..], i, m.now, m.now); }
    } else {
      CallFound(q, ms[1..], i, m.now);
      assert CallOf(q, ms[1..], i).value in ms[1..];
    }
  }

  lemma WhoRegisters(r: Registry, m: Moment)
    requires Enabled(r, m.event) && |Next(r, m.now, m.event).waiters| > |r.waiters|
    ensures m.event.Registered?
  {
    if m.event.InitialReadReturned? {
      FirstDates(r.(reading := r.reading - {m.event.i}), m.now, m.event.i, m.event.result, m.event.i);
    } else if m.event.DeadlineFired? {
      ArmDates(r.(waiters := r.waiters[m.event.i := r.waiters[m.event.i].(timer := None)]), m.now, m.event.i);
    } else if !m.event.Registered? {
      LoopsRest(r, m);
    }
  }

  /** In every history, for every waiter past its initial read: its deadline is the one a poll called
      at the same moment would have if and only if that read returned at the very instant of the
      call. On a clock that never goes back it is never earlier. */
  lemma BudgetStartsAtRead(ms: seq<Moment>, i: nat)
    requires Run(Fresh, ms) && i < |After(Fresh, ms).waiters|
    requires var w := After(Fresh, ms).waiters[i]; w.readAt.Some? && w.budget.Some?
    ensures var w, call := After(Fresh, ms).waiters[i], CallOf(Fresh, ms, i);
      && call.Some? && call.value in ms && call.value.event.Registered?
      && call.value.event.run == w.runId && AsCalled(call.value.event, w)
      && (w.deadline == Some(PollDeadline(call.value.now, w.budget.value)) <==> w.readAt == Some(call.value.now))
      && (Monotone(ms[0].now, ms) ==> w.deadline.Some? && PollDeadline(call.value.now, w.budget.value) <= w.deadline.value)
  {
    CallFound(Fresh, ms, i, ms[0].now);
  }

  /** A call at one instant, its initial read back at another, and its timer at a third. */
  function LateRead(run: RunId, budget: real, called: real, read: real, row: RunRead, fired: real): seq<Moment> {
    [Moment(called, Registered(run, Milliseconds(budget), false, false, false)),
     Moment(read, InitialReadReturned(0, Read(Found(row)))),
     Moment(fired, DeadlineFired(0))]
  }

  /** When the read takes time, the waiter is kept where the poll would have timed out. */
  lemma LateReadOutlastsPoll(run: RunId, budget: real, called: real, read: real, row: RunRead, fired: real)
    requires called < read <= fired && PollDeadline(called, budget) <= fired < read + budget
    requires budget > 0.0 && !Terminal(row.status)
    ensures var ms := LateRead(run, budget, called, read, row, fired);
      && Run(Fresh, ms) && |After(Fresh, ms).waiters| == 1 && IsPending(After(Fresh, ms), 0)
      && 0 !in After(Fresh, ms).settled
      && Poll(After(Fresh, ms).waiters[0], [Found(row)], true).Some?
      && After(Fresh, ms).waiters[0].deadline == Some(read + budget)
  {
    var ms := LateRead(run, budget, called, read, row, fired);
    var r1 := Next(Fresh, called, ms[0].event);
    var r2 := Next(r1, read, ms[1].event);
    assert r1.waiters[0].runId == run && r1.active == {0} && 0 in r1.reading;
    assert IsPending(r2, 0) && r2.waiters[0].deadline == Some(read + budget) && r2.waiters[0].timer.Some?;
    var r3 := Next(r2, fired, ms[2].event);
    assert ms[1..][0] == ms[1] && ms[1..][1..][0] == ms[2] && ms[1..][1..][1..] == [];
    assert Run(r3, []) && Run(r2, ms[1..][1..]) && Run(r1, ms[1..]);
    assert After(r2, ms[1..][1..]) == r3 && After(r1, ms[1..]) == r3;
  }
}
