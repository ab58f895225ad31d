/** The worker runtime as an object: the closures over its shared variables, a method for each
    stretch of code between two awaits that does more than assign, proved to do what module
    WorkerRuntime does. Its wake-ups, hand-back and deregistration are steps of the machine only. */
module RuntimeObject {
  import opened Options
  import opened WorkerRuntime

  class Runtime {
    const namespaces: nat
    var slots: seq<Slot>
    var inFlight: map<RunId, nat>
    var told: set<nat>
    var stopping: bool
    var heartbeatStopped: bool
    var callbacks: nat
    var outstanding: set<nat>
    var heartbeatTick: Option<nat>
    var ticks: nat
    var shutdown: Shutdown
    var claimRotation: nat
    var executors: nat
    ghost var handBacks: nat
    ghost var leads: seq<nat>

    ghost function View(): Worker
      reads this
    {
      Worker(namespaces, slots, inFlight, told, stopping, heartbeatStopped, callbacks, outstanding, heartbeatTick, ticks,
             shutdown, handBacks, claimRotation, leads, executors)
    }

    /** What every history keeps of the heartbeat chain, the shutdown, the rotation and the map. */
    ghost predicate Valid()
      reads this
    {
      Sound(View())
    }

    constructor (namespaces: nat, concurrency: nat)
      ensures Valid() && View() == WorkerRuntime.Start(namespaces, concurrency)
    {
      this.namespaces, slots := namespaces, seq(concurrency, _ => Top);
      inFlight, told, stopping, heartbeatStopped := map[], {}, false, false;
      callbacks, outstanding, heartbeatTick, ticks := 0, {}, None, 0;
      shutdown, claimRotation, executors, handBacks, leads := Serving, 0, 0, 0, [];
      new;
      ScheduleHeartbeat();
      assert slots == seq(concurrency, _ => Top);
      StartSound(namespaces, concurrency);
    }

    /* ---- heartbeats ---- */

    method ScheduleHeartbeat()
      modifies `callbacks
      ensures callbacks == if heartbeatStopped then old(callbacks) else old(callbacks) + 1
    {
      if heartbeatStopped { return; }
      callbacks := callbacks + 1;
    }

    /** A timer callback: it sends the heartbeat for the runs in flight unless it comes too late. */
    method OnTimer() returns (runs: set<RunId>)
      requires Valid() && callbacks > 0
      modifies this
      ensures Valid() && View() == Next(old(View()), TimerCallback)
      ensures runs == if heartbeatStopped then {} else inFlight.Keys
    {
      ghost var next := Next(View(), TimerCallback);
      NextKeepsSound(View(), TimerCallback);
      callbacks := callbacks - 1;
      if heartbeatStopped { return {}; }
      outstanding, heartbeatTick, ticks := outstanding + {ticks}, Some(ticks), ticks + 1;
      runs := inFlight.Keys;
      assert View() == next;
    }

    method OnTickSettled(t: nat)
      requires Valid() && t in outstanding
      modifies this
      ensures Valid() && View() == Next(old(View()), TickSettled(t))
    {
      NextKeepsSound(View(), TickSettled(t));
      outstanding := outstanding - {t};
      ScheduleHeartbeat();
    }

    /* ---- a claim loop ---- */

    /** The head of the loop: the namespace to lead this claim call, unless the loop is over. */
    method BeginClaim(s: nat) returns (rotateFrom: Option<nat>)
      requires Valid() && Enabled(View(), SlotTurn(s))
      modifies this
      ensures Valid() && View() == Next(old(View()), SlotTurn(s))
      ensures rotateFrom == if old(stopping) then None else Some(old(claimRotation))
    {
      NextKeepsSound(View(), SlotTurn(s));
      if stopping {
        slots := slots[s := Exited];
        return None;
      }
      rotateFrom := Some(claimRotation);
      leads := leads + [claimRotation];
      var count := if namespaces < 1 then 1 else namespaces;
      claimRotation := (claimRotation + 1) % count;
      slots := slots[s := Claiming];
    }

    method OnClaim(s: nat, reply: ClaimReply)
      requires Valid() && Enabled(View(), ClaimReturned(s, reply))
      modifies this
      ensures Valid() && View() == Next(old(View()), ClaimReturned(s, reply))
    {
      ghost var next := Next(View(), ClaimReturned(s, reply));
      NextKeepsSound(View(), ClaimReturned(s, reply));
      if reply.ClaimError? {
        slots := slots[s := if stopping then Exited else Sleeping];
        return;
      }
      if reply.Nothing? {
        slots := slots[s := Sleeping];
        return;
      }
      if stopping {
        slots := slots[s := Releasing(reply.run, true)];
        return;
      }
      if !reply.known {
        slots := slots[s := Releasing(reply.run, false)];
        return;
      }
      inFlight := inFlight[reply.run := executors];
      slots := slots[s := Executing(reply.run, executors)];
      executors := executors + 1;
      assert View() == next;
    }

    /* ---- shutdown ---- */

    method Stop()
      requires Valid()
      modifies this
      ensures Valid() && View() == Next(old(View()), StopCalled)
    {
      NextKeepsSound(View(), StopCalled);
      if !shutdown.Serving? { return; }
      stopping, shutdown := true, Draining;
      TellAll();
    }

    method TellAll()
      modifies `told
      ensures told == old(told) + inFlight.Values
    {
      var rest := inFlight.Keys;
      while rest != {}
        invariant rest <= inFlight.Keys
        invariant forall x :: x in told <==> x in old(told) || exists run :: run in inFlight && run !in rest && inFlight[run] == x
        decreases |rest|
      {
        var run :| run in rest;
        told := told + {inFlight[run]};
        rest := rest - {run};
      }
      assert forall x :: x in inFlight.Values <==> exists run :: run in inFlight && inFlight[run] == x;
    }
  }
}
