/** The waiter registry as an object, one method for each stretch of code between two awaits.
    Every method is proved to do what the machine of module Waiters does. */
module WaiterRegistryObject {
  import opened Options
  import opened Waiters

  class WaiterRegistry {
    var waiters: seq<Waiter>
    var active: set<nat>
    var pending: map<RunId, Room>
    var rooms: nat
    var reading: set<nat>
    var resolving: multiset<Ticket>
    var sweeping: Option<seq<nat>>
    var stopped: bool
    var settled: map<nat, Settlement>

    ghost function View(): Registry
      reads this
    {
      Registry(waiters, active, pending, rooms, reading, resolving, sweeping, stopped, settled)
    }

    /** No active waiter has been settled: what Promise settles stays settled once. */
    ghost predicate Valid()
      reads this
    {
      active !! settled.Keys && forall i :: i in active || i in settled ==> i < |waiters|
    }

    constructor ()
      ensures Valid() && View() == Fresh
    {
      waiters, active, pending, rooms, reading := [], {}, map[], 0, {};
      resolving, sweeping, stopped, settled := multiset{}, None, false, map[];
    }

    predicate Waiting(i: nat)
      reads this
    {
      i < |waiters| && waiters[i].runId in pending && i in pending[waiters[i].runId].members
    }

    /* ---- settling ---- */

    method Remove(i: nat) returns (removed: bool)
      requires Valid() && i < |waiters|
      modifies `waiters, `active, `pending
      ensures removed == (i in old(active)) && active == old(active) - {i}
      ensures !removed ==> View() == old(View())
      ensures removed ==> waiters == old(waiters)[i := old(waiters)[i].(timer := None, listening := false)]
                          && pending == Leave(old(pending), old(waiters)[i].runId, i)
    {
      if i !in active { return false; }
      active := active - {i};
      var run := waiters[i].runId;
      waiters := waiters[i := waiters[i].(timer := None, listening := false)];
      if run in pending {
        var room := pending[run].(members := pending[run].members - {i});
        pending := if room.members == {} then pending - {run} else pending[run := room];
      }
      removed := true;
    }

    /** The promise of an entry: settled at most once. */
    method Fulfil(now: real, i: nat, outcome: Outcome)
      requires i !in settled
      modifies `settled
      ensures settled == old(settled)[i := Settlement(outcome, now)]
    {
      settled := settled[i := Settlement(outcome, now)];
    }

    method SettleWith(now: real, i: nat, seen: seq<Observation>, outcome: Outcome)
      requires Valid() && i < |waiters|
      modifies `waiters, `active, `pending, `settled
      ensures Valid() && View() == Settle(old(View()), now, i, seen, outcome)
    {
      var removed := Remove(i);
      if !removed { return; }
      waiters := waiters[i := waiters[i].(seen := seen)];
      Fulfil(now, i, outcome);
    }

    method SettleTimedOut(now: real, i: nat)
      requires Valid() && i < |waiters|
      modifies `waiters, `active, `pending, `settled
      ensures Valid() && View() == SettleTimeout(old(View()), now, i)
    {
      var w := waiters[i];
      if w.lastStatus.None? { return; }
      if w.throwOnTimeout {
        SettleWith(now, i, w.seen, TimedOut(w.lastStatus.value));
      } else {
        SettleWith(now, i, w.seen, Latest(w.lastStatus.value));
      }
    }

    method Arm(now: real, i: nat)
      requires Valid() && i < |waiters|
      modifies `waiters, `active, `pending, `settled
      ensures Valid() && View() == ArmDeadline(old(View()), now, i)
    {
      if !Waiting(i) || waiters[i].deadline.None? { return; }
      var remaining := waiters[i].deadline.value - now;
      if remaining <= 0.0 {
        SettleTimedOut(now, i);
        return;
      }
      waiters := waiters[i := waiters[i].(timer := Some(Timer(now, Chunk(remaining))), armed := waiters[i].armed + 1)];
    }

    /* ---- registering ---- */

    method RegisterWaiter(run: RunId, timeout: Timeout, throwOnTimeout: bool, signal: bool, aborted: bool)
      returns (refusal: Option<Refusal>)
      requires Valid()
      modifies this
      ensures Valid() && View() == Next(old(View()), 0.0, Registered(run, timeout, throwOnTimeout, signal, aborted))
      ensures refusal.Some? <==> Refuses(old(View()), timeout, signal && aborted)
      ensures old(stopped) ==> refusal == Some(RegistryStopped)
    {
      if stopped { return Some(RegistryStopped); }
      if signal && aborted { return Some(AlreadyAborted); }
      if timeout.NotANumber? || (timeout.Milliseconds? && timeout.ms < 0.0) { return Some(BadRequest); }
      var i := |waiters|;
      waiters := waiters + [Waiter(run, Budget(timeout), throwOnTimeout, signal, None, None, None, [], None, 0)];
      active := active + {i};
      reading := reading + {i};
      refusal := None;
    }

    method EnterRoom(i: nat)
      requires Valid() && i < |waiters|
      modifies `pending, `rooms
      ensures Valid() && View() == Enter(old(View()), i)
    {
      var run := waiters[i].runId;
      if run !in pending {
        pending := pending[run := Room(rooms, {})];
        rooms := rooms + 1;
      }
      pending := pending[run := pending[run].(members := pending[run].members + {i})];
      assert {} + {i} == {i};
    }

    method Initialize(now: real, i: nat, result: ReadResult)
      requires Valid() && Enabled(View(), InitialReadReturned(i, result))
      modifies this
      ensures Valid() && View() == Next(old(View()), now, InitialReadReturned(i, result))
    {
      reading := reading - {i};
      if i !in active { return; }
      var w := waiters[i];
      if result.ReadError? {
        SettleWith(now, i, w.seen, ReadFailed);
        return;
      }
      if result.reply.Missing? {
        SettleWith(now, i, w.seen + [Missing], NotFound);
        return;
      }
      var row := result.reply.row;
      if Terminal(row.status) || w.budget == Some(0.0) {
        SettleWith(now, i, w.seen + [result.reply], if Terminal(row.status) then Result(row) else Latest(row.status));
        return;
      }
      waiters := waiters[i := FirstStatus(w, now, row)];
      EnterRoom(i);
      Arm(now, i);
    }

    /* ---- notification, sweep, stop ---- */

    method Note(i: nat, row: RunRead)
      requires Valid() && i < |waiters|
      modifies `waiters
      ensures Valid() && View() == Observe(old(View()), i, row)
    {
      waiters := waiters[i := waiters[i].(lastStatus := Some(row.status), seen := waiters[i].seen + [Found(row)])];
    }

    method ResolveReturned(now: real, t: Ticket, result: ReadResult, entries: seq<nat>)
      requires Valid() && Enabled(View(), ResolveReadReturned(t, result, entries))
      modifies this
      ensures Valid() && View() == Next(old(View()), now, ResolveReadReturned(t, result, entries))
    {
      resolving := resolving - multiset{t};
      if result.ReadError? { return; }
      ghost var start := View();
      var reply := result.reply;
      for k := 0 to |entries|
        invariant Valid() && View() == ResolveAll(start, now, reply, entries[..k])
      {
        assert entries[..k + 1][..k] == entries[..k];
        var i := entries[k];
        if Waiting(i) {
          if reply.Missing? {
            SettleWith(now, i, waiters[i].seen + [Missing], NotFound);
          } else if Terminal(reply.row.status) {
            SettleWith(now, i, waiters[i].seen + [reply], Result(reply.row));
          } else {
            Note(i, reply.row);
          }
        }
      }
      assert entries[..|entries|] == entries;
    }

    method Poll(entries: seq<nat>)
      requires Valid() && Enabled(View(), PollTick(entries))
      modifies `sweeping
      ensures Valid() && View() == Next(old(View()), 0.0, PollTick(entries))
    {
      if sweeping.Some? || |entries| == 0 { return; }
      sweeping := Some(entries);
    }

    method Sweep(now: real, rows: Option<map<RunId, RunRead>>)
      requires Valid() && sweeping.Some?
      modifies this
      ensures Valid() && View() == Next(old(View()), now, SweepReturned(rows))
    {
      var entries := sweeping.value;
      sweeping := None;
      if rows.None? { return; }
      ghost var start := View();
      for k := 0 to |entries|
        invariant Valid() && View() == SweepAll(start, now, rows.value, entries[..k])
      {
        assert entries[..k + 1][..k] == entries[..k];
        SweepEntry(now, rows.value, entries[k]);
      }
      assert entries[..|entries|] == entries;
    }

    method SweepEntry(now: real, rows: map<RunId, RunRead>, i: nat)
      requires Valid()
      modifies `waiters, `active, `pending, `settled
      ensures Valid() && View() == SweepOne(old(View()), now, rows, i)
    {
      if !Waiting(i) { return; }
      if waiters[i].runId !in rows {
        SettleWith(now, i, waiters[i].seen + [Missing], NotFound);
        return;
      }
      var row := rows[waiters[i].runId];
      Note(i, row);
      if Terminal(row.status) {
        SettleWith(now, i, waiters[i].seen, Result(row));
        return;
      }
      if waiters[i].deadline.Some? && waiters[i].deadline.value <= now {
        SettleTimedOut(now, i);
      }
    }

    method FireDeadline(now: real, i: nat)
      requires Valid() && Enabled(View(), DeadlineFired(i))
      modifies this
      ensures Valid() && View() == Next(old(View()), now, DeadlineFired(i))
    {
      waiters := waiters[i := waiters[i].(timer := None)];
      Arm(now, i);
    }

    method Abort(now: real, i: nat)
      requires Valid() && Enabled(View(), SignalAborted(i))
      modifies this
      ensures Valid() && View() == Next(old(View()), now, SignalAborted(i))
    {
      SettleWith(now, i, waiters[i].seen, Aborted);
    }

    method Stop(now: real)
      requires Valid()
      modifies this
      ensures Valid() && View() == Next(old(View()), now, StopCalled)
      ensures stopped && active == {}
    {
      stopped := true;
      ghost var start := View();
      for i := 0 to |waiters|
        invariant Valid() && View() == StopAll(start, now, i) && stopped && |waiters| == |start.waiters|
        invariant forall k :: k in active ==> i <= k
      {
        SettleWith(now, i, waiters[i].seen, Stopped);
      }
    }
  }
}
