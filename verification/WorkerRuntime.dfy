/** The worker runtime: its heartbeat chain, its claim slots and its shutdown, as one state machine.
    A timer callback may run late, even after clearTimeout; claims and executions end when they like. */
module WorkerRuntime {
  import opened Options

  type RunId = nat

  /** Where one claim loop stands. */
  datatype Slot =
    | Top | Claiming | Sleeping
    | Releasing(run: RunId, exits: bool)
    | Executing(run: RunId, executor: nat)
    | Exited

  datatype Shutdown = Serving | Draining | AwaitingTick(tick: Option<nat>) | HandingBack | Deregistering | Down

  datatype ClaimReply = Claimed(run: RunId, known: bool) | Nothing | ClaimError

  /** `callbacks` counts timer callbacks that may still run. `ticks`, `handBacks`, `leads` and
      `executors` are history: heartbeats sent, hand-backs begun, the namespace leading each claim
      call, executors made. */
  datatype Worker = Worker(
    namespaces: nat, slots: seq<Slot>, inFlight: map<RunId, nat>, told: set<nat>, stopping: bool,
    heartbeatStopped: bool, callbacks: nat, outstanding: set<nat>, tick: Option<nat>, ticks: nat,
    shutdown: Shutdown, handBacks: nat, rotation: nat, leads: seq<nat>, executors: nat)

  datatype Event =
    | TimerCallback | TickSettled(tick: nat)
    | SlotTurn(slot: nat) | ClaimReturned(slot: nat, reply: ClaimReply)
    | SlotWoke(slot: nat) | ReleaseReturned(slot: nat) | ExecutionEnded(slot: nat)
    | StopCalled | DrainOver | TickAwaited | ClaimsReleased | Deregistered

  /* ---- the transitions ---- */

  function NamespaceCount(w: Worker): nat {
    if w.namespaces < 1 then 1 else w.namespaces
  }

  function Start(namespaces: nat, concurrency: nat): Worker {
    Worker(namespaces, seq(concurrency, _ => Top), map[], {}, false, false, 1, {}, None, 0, Serving, 0, 0, [], 0)
  }

  function Move(w: Worker, s: nat, to: Slot): Worker
    requires s < |w.slots|
  {
    w.(slots := w.slots[s := to])
  }

  function OnTimer(w: Worker): Worker
    requires w.callbacks > 0
  {
    var q := w.(callbacks := w.callbacks - 1);
    if w.heartbeatStopped then q
    else q.(outstanding := w.outstanding + {w.ticks}, tick := Some(w.ticks), ticks := w.ticks + 1)
  }

  function OnTickSettled(w: Worker, t: nat): Worker {
    var q := w.(outstanding := w.outstanding - {t});
    if w.heartbeatStopped then q else q.(callbacks := q.callbacks + 1)
  }

  function Turn(w: Worker, s: nat): Worker
    requires s < |w.slots|
  {
    if w.stopping then Move(w, s, Exited)
    else Move(w, s, Claiming).(leads := w.leads + [w.rotation], rotation := (w.rotation + 1) % NamespaceCount(w))
  }

  function OnClaim(w: Worker, s: nat, reply: ClaimReply): Worker
    requires s < |w.slots|
  {
    match reply
    case ClaimError => Move(w, s, if w.stopping then Exited else Sleeping)
    case Nothing => Move(w, s, Sleeping)
    case Claimed(run, known) =>
      if w.stopping then Move(w, s, Releasing(run, true))
      else if !known then Move(w, s, Releasing(run, false))
      else Move(w, s, Executing(run, w.executors)).(inFlight := w.inFlight[run := w.executors], executors := w.executors + 1)
  }

  predicate Enabled(w: Worker, e: Event) {
    match e
    case TimerCallback => w.callbacks > 0
    case TickSettled(t) => t in w.outstanding
    case SlotTurn(s) => s < |w.slots| && w.slots[s].Top?
    case ClaimReturned(s, _) => s < |w.slots| && w.slots[s].Claiming?
    case SlotWoke(s) => s < |w.slots| && w.slots[s].Sleeping?
    case ReleaseReturned(s) => s < |w.slots| && w.slots[s].Releasing?
    case ExecutionEnded(s) => s < |w.slots| && w.slots[s].Executing?
    case StopCalled => true
    case DrainOver => w.shutdown.Draining?
    case TickAwaited => w.shutdown.AwaitingTick? && (w.shutdown.tick.Some? ==> w.shutdown.tick.value !in w.outstanding)
    case ClaimsReleased => w.shutdown.HandingBack?
    case Deregistered => w.shutdown.Deregistering?
  }

  function Next(w: Worker, e: Event): Worker
    requires Enabled(w, e)
  {
    match e
    case TimerCallback => OnTimer(w)
    case TickSettled(t) => OnTickSettled(w, t)
    case SlotTurn(s) => Turn(w, s)
    case ClaimReturned(s, reply) => OnClaim(w, s, reply)
    case SlotWoke(s) => Move(w, s, Top)
    case ReleaseReturned(s) => Move(w, s, if w.slots[s].exits then Exited else Top)
    case ExecutionEnded(s) => Move(w, s, Top).(inFlight := w.inFlight - {w.slots[s].run})
    case StopCalled =>
      if w.shutdown.Serving? then w.(stopping := true, shutdown := Draining, told := w.told + w.inFlight.Values) else w
    case DrainOver => w.(heartbeatStopped := true, shutdown := AwaitingTick(w.tick))
    case TickAwaited => w.(shutdown := HandingBack, handBacks := w.handBacks + 1)
    case ClaimsReleased => w.(shutdown := Deregistering)
    case Deregistered => w.(shutdown := Down)
  }

  predicate Run(w: Worker, es: seq<Event>)
    decreases es
  {
    es == [] || (Enabled(w, es[0]) && Run(Next(w, es[0]), es[1..]))
  }

  function After(w: Worker, es: seq<Event>): Worker
    requires Run(w, es)
    decreases es
  {
    if es == [] then w else After(Next(w, es[0]), es[1..])
  }

  /* ---- what every interleaving keeps ---- */

  /** The heartbeat chain: one callback pending or one tick in flight, never both, until stopped. */
  predicate Chained(w: Worker) {
    && (w.outstanding == {} || (w.tick.Some? && w.outstanding == {w.tick.value}))
    && (w.tick.Some? ==> w.tick.value < w.ticks)
    && w.callbacks <= 1
    && (w.outstanding != {} ==> w.callbacks == 0)
    && (!w.heartbeatStopped ==> (w.callbacks == 1 <==> w.outstanding == {}))
  }

  predicate HandedBack(w: Worker) {
    w.shutdown.HandingBack? || w.shutdown.Deregistering? || w.shutdown.Down?
  }

  predicate Staged(w: Worker) {
    && (w.stopping <==> !w.shutdown.Serving?)
    && (w.heartbeatStopped <==> !w.shutdown.Serving? && !w.shutdown.Draining?)
    && (w.shutdown.AwaitingTick? ==> w.shutdown.tick == w.tick)
    && (HandedBack(w) ==> w.outstanding == {})
    && w.handBacks == (if HandedBack(w) then 1 else 0)
  }

  function Successor(r: nat, n: nat): nat {
    if r + 1 == n then 0 else r + 1
  }

  predicate Rotates(w: Worker) {
    && w.rotation < NamespaceCount(w)
    && (forall k :: 0 <= k < |w.leads| ==> w.leads[k] < NamespaceCount(w))
    && (forall k :: 1 <= k < |w.leads| ==> w.leads[k] == Successor(w.leads[k - 1], NamespaceCount(w)))
    && w.rotation == if w.leads == [] then 0 else Successor(w.leads[|w.leads| - 1], NamespaceCount(w))
  }

  predicate Runs(s: Slot, run: RunId) {
    s.Executing? && s.run == run
  }

  /** Whatever is in flight is being executed, by the executor the map holds. */
  predicate Tracked(w: Worker) {
    forall run :: run in w.inFlight ==> exists s :: 0 <= s < |w.slots| && w.slots[s] == Executing(run, w.inFlight[run])
  }

  /** No executor serves two slots, and none is told anything before stop. */
  predicate Numbered(w: Worker) {
    && (forall s :: 0 <= s < |w.slots| && w.slots[s].Executing? ==> w.slots[s].executor < w.executors)
    && (forall s, t :: 0 <= s < t < |w.slots| && w.slots[s].Executing? && w.slots[t].Executing? ==>
          w.slots[s].executor != w.slots[t].executor)
    && (!w.stopping ==> w.told == {})
  }

  predicate Sound(w: Worker) {
    Chained(w) && Staged(w) && Rotates(w) && Tracked(w) && Numbered(w)
  }

  lemma StartSound(namespaces: nat, concurrency: nat)
    ensures Sound(Start(namespaces, concurrency))
  {
  }

  lemma NextKeepsTracked(w: Worker, e: Event)
    requires Tracked(w) && Enabled(w, e)
    ensures Tracked(Next(w, e))
  {
    var q := Next(w, e);
    forall run | run in q.inFlight ensures exists s :: 0 <= s < |q.slots| && q.slots[s] == Executing(run, q.inFlight[run]) {
      if e.ClaimReturned? && q.slots[e.slot].Executing? && q.slots[e.slot].run == run {
        assert q.slots[e.slot] == Executing(run, q.inFlight[run]);
      } else {
        var s :| 0 <= s < |w.slots| && w.slots[s] == Executing(run, w.inFlight[run]);
        assert q.slots[s] == w.slots[s];
      }
    }
  }

  lemma NextKeepsNumbered(w: Worker, e: Event)
    requires Numbered(w) && Staged(w) && Enabled(w, e)
    ensures Numbered(Next(w, e))
  {
    var q := Next(w, e);
    forall s | 0 <= s < |q.slots| && q.slots[s].Executing?
      ensures q.slots[s] == w.slots[s] || (q.slots[s].executor == w.executors && q.executors == w.executors + 1 && e.ClaimReturned? && e.slot == s)
    {
    }
  }

  lemma TurnRotates(w: Worker, s: nat)
    requires Rotates(w) && s < |w.slots|
    ensures Rotates(Turn(w, s))
  {
    var n := NamespaceCount(w);
    assert (w.rotation + 1) % n == Successor(w.rotation, n);
  }

  lemma NextKeepsRotates(w: Worker, e: Event)
    requires Rotates(w) && Enabled(w, e)
    ensures Rotates(Next(w, e)) && Next(w, e).namespaces == w.namespaces
  {
    var q := Next(w, e);
    if e.SlotTurn? {
      TurnRotates(w, e.slot);
    } else {
      assert q.leads == w.leads && q.rotation == w.rotation && q.namespaces == w.namespaces;
    }
  }

  lemma NextKeepsChained(w: Worker, e: Event)
    requires Chained(w) && Staged(w) && Enabled(w, e)
    ensures Chained(Next(w, e)) && Staged(Next(w, e))
  {
  }

  /** Each flag, once set, stays set and freezes what it guards. */
  predicate Later(w: Worker, q: Worker) {
    && q.namespaces == w.namespaces
    && (w.stopping ==> q.stopping && q.executors == w.executors && q.leads == w.leads)
    && (w.heartbeatStopped ==> q.heartbeatStopped && q.ticks == w.ticks && q.callbacks <= w.callbacks)
    && (HandedBack(w) ==> HandedBack(q))
  }

  lemma NextIsLater(w: Worker, e: Event)
    requires Enabled(w, e)
    ensures Later(w, Next(w, e))
  {
  }

  lemma NextKeepsSound(w: Worker, e: Event)
    requires Sound(w) && Enabled(w, e)
    ensures Sound(Next(w, e))
  {
    NextKeepsTracked(w, e);
    NextKeepsNumbered(w, e);
    NextKeepsRotates(w, e);
    NextKeepsChained(w, e);
  }

  lemma {:induction false} RunKeepsSound(w: Worker, es: seq<Event>)
    requires Sound(w) && Run(w, es)
    ensures Sound(After(w, es)) && Later(w, After(w, es))
    decreases es
  {
    if es != [] {
      NextKeepsSound(w, es[0]);
      NextIsLater(w, es[0]);
      RunKeepsSound(Next(w, es[0]), es[1..]);
    }
  }

  /* ---- the promises ---- */

  /** Heartbeats never overlap, and until the drain is over the chain is never broken. */
  lemma HeartbeatsNeverOverlap(namespaces: nat, concurrency: nat, es: seq<Event>, t: nat, u: nat)
    requires Run(Start(namespaces, concurrency), es)
    ensures var w := After(Start(namespaces, concurrency), es);
      && (t in w.outstanding && u in w.outstanding ==> t == u)
      && (w.outstanding != {} ==> w.callbacks == 0)
      && (!w.heartbeatStopped ==> w.callbacks == 1 || w.outstanding != {})
  {
    StartSound(namespaces, concurrency);
    RunKeepsSound(Start(namespaces, concurrency), es);
  }

  /** Once the hand-back has begun no heartbeat is outstanding and none is sent again, however late
      a timer callback runs; and the hand-back begins at most once, however often stop is called. From
      the end of the drain on no timer is set either. */
  lemma HandBackIsLast(namespaces: nat, concurrency: nat, es: seq<Event>, fs: seq<Event>)
    requires Run(Start(namespaces, concurrency), es) && Run(After(Start(namespaces, concurrency), es), fs)
    ensures var w := After(Start(namespaces, concurrency), es); var q := After(w, fs);
      && q.handBacks <= 1
      && (w.handBacks == 1 ==> w.outstanding == {} && q.outstanding == {} && q.ticks == w.ticks && q.handBacks == 1)
      && (w.heartbeatStopped ==> q.ticks == w.ticks && q.callbacks <= w.callbacks)
  {
    StartSound(namespaces, concurrency);
    RunKeepsSound(Start(namespaces, concurrency), es);
    RunKeepsSound(After(Start(namespaces, concurrency), es), fs);
  }

  /** After stop no claim call is made and no executor either: a claim that resolves late is
      released, and its slot exits. */
  lemma LateClaimsAreReleased(namespaces: nat, concurrency: nat, es: seq<Event>, fs: seq<Event>, s: nat, run: RunId, known: bool)
    requires Run(Start(namespaces, concurrency), es) && After(Start(namespaces, concurrency), es).stopping
    requires Run(After(Start(namespaces, concurrency), es), fs)
    ensures var w := After(Start(namespaces, concurrency), es); var q := After(w, fs);
      && q.executors == w.executors && q.leads == w.leads
      && (Enabled(q, ClaimReturned(s, Claimed(run, known))) ==>
            Next(q, ClaimReturned(s, Claimed(run, known))) == Move(q, s, Releasing(run, true)))
  {
    StartSound(namespaces, concurrency);
    RunKeepsSound(Start(namespaces, concurrency), es);
    RunKeepsSound(After(Start(namespaces, concurrency), es), fs);
  }

  /** Every served namespace leads the scan exactly once in any stretch of as many claim calls as
      there are namespaces, whichever slots make them. */
  lemma EachNamespaceLeads(namespaces: nat, concurrency: nat, es: seq<Event>, from: nat, ns: nat)
    requires Run(Start(namespaces, concurrency), es) && ns < namespaces
    requires from + namespaces <= |After(Start(namespaces, concurrency), es).leads|
    ensures var leads := After(Start(namespaces, concurrency), es).leads;
      && (exists k :: from <= k < from + namespaces && leads[k] == ns)
      && (forall j, k :: from <= j < k < from + namespaces ==> leads[j] != leads[k])
  {
    StartSound(namespaces, concurrency);
    RunKeepsSound(Start(namespaces, concurrency), es);
    var leads := After(Start(namespaces, concurrency), es).leads;
    var m := leads[from];
    var k := if ns >= m then from + ns - m else from + ns + namespaces - m;
    LeadAfter(leads, namespaces, from, k - from);
    forall i, j | from <= i < j < from + namespaces ensures leads[i] != leads[j] {
      LeadAfter(leads, namespaces, i, j - i);
    }
  }

  lemma {:induction false} LeadAfter(leads: seq<nat>, n: nat, i: nat, j: nat)
    requires n > 0 && j < n && i + j < |leads| && leads[i] < n
    requires forall k :: 1 <= k < |leads| ==> leads[k] == Successor(leads[k - 1], n)
    ensures leads[i + j] == if leads[i] + j < n then leads[i] + j else leads[i] + j - n
  {
    if j > 0 { LeadAfter(leads, n, i, j - 1); }
  }

  /* ---- a slot goes on claiming ---- */

  /** A slot leaves its loop, or is about to, only when the worker is stopping. */
  predicate Manned(w: Worker) {
    forall s :: 0 <= s < |w.slots| ==> (w.slots[s].Exited? || (w.slots[s].Releasing? && w.slots[s].exits) ==> w.stopping)
  }

  lemma NextKeepsManned(w: Worker, e: Event)
    requires Manned(w) && Enabled(w, e)
    ensures Manned(Next(w, e)) && |Next(w, e).slots| == |w.slots|
  {
    var q := Next(w, e);
    forall s | 0 <= s < |q.slots| && (q.slots[s].Exited? || (q.slots[s].Releasing? && q.slots[s].exits)) ensures q.stopping {
      assert q.slots[s] == w.slots[s] || w.stopping;
    }
  }

  lemma {:induction false} RunKeepsManned(w: Worker, es: seq<Event>)
    requires Manned(w) && Run(w, es)
    ensures Manned(After(w, es)) && |After(w, es).slots| == |w.slots|
    decreases es
  {
    if es != [] {
      NextKeepsManned(w, es[0]);
      RunKeepsManned(Next(w, es[0]), es[1..]);
    }
  }

  lemma SlotsLeaveOnlyWhenStopping(namespaces: nat, concurrency: nat, es: seq<Event>, s: nat)
    requires Run(Start(namespaces, concurrency), es) && s < |After(Start(namespaces, concurrency), es).slots|
    ensures var w := After(Start(namespaces, concurrency), es);
      && |w.slots| == concurrency
      && (w.slots[s] == Exited ==> w.stopping) && (w.slots[s].Releasing? && w.slots[s].exits ==> w.stopping)
  {
    RunKeepsManned(Start(namespaces, concurrency), es);
  }

  /** The code of this slot alone, answered by its own awaits. */
  predicate Own(e: Event, s: nat) {
    e == SlotTurn(s) || e == SlotWoke(s) || e == ReleaseReturned(s) || e == ExecutionEnded(s) || (e.ClaimReturned? && e.slot == s)
  }

  /** What a slot does between one claim call and the next, given the answer to the first. */
  function Round(s: nat, reply: ClaimReply): seq<Event> {
    match reply
    case ClaimError => [ClaimReturned(s, reply), SlotWoke(s), SlotTurn(s)]
    case Nothing => [ClaimReturned(s, reply), SlotWoke(s), SlotTurn(s)]
    case Claimed(_, known) => [ClaimReturned(s, reply), if known then ExecutionEnded(s) else ReleaseReturned(s), SlotTurn(s)]
  }

  /** While the worker serves, whatever a claim call answers, an error included, its slot is back at a
      claim call by three events of its own: it sleeps, hands the run back, or executes it, and claims. */
  lemma ClaimsAgain(w: Worker, s: nat, reply: ClaimReply)
    requires s < |w.slots| && w.slots[s] == Claiming && !w.stopping
    ensures var es := Round(s, reply);
      && Run(w, es) && (forall i :: 0 <= i < |es| ==> Own(es[i], s))
      && After(w, es).slots == w.slots && !After(w, es).stopping
      && |After(w, es).leads| == |w.leads| + 1
  {
    var es := Round(s, reply);
    var w1 := Next(w, es[0]);
    assert w1.slots == w.slots[s := w1.slots[s]] && Enabled(w1, es[1]);
    BackToTop(w1, s, es[1]);
    assert es[1..] == [es[1], SlotTurn(s)];
    assert w1.slots[s := Claiming] == w.slots;
  }

  /** What a slot has to do to make its next claim call, from where it stands. */
  function ToClaim(slot: Slot, s: nat): seq<Event> {
    match slot
    case Top => [SlotTurn(s)]
    case Claiming => []
    case Sleeping => [SlotWoke(s), SlotTurn(s)]
    case Releasing(_, _) => [ReleaseReturned(s), SlotTurn(s)]
    case Executing(_, _) => [ExecutionEnded(s), SlotTurn(s)]
    case Exited => []
  }

  /** From every reachable moment at which the worker serves, each slot is in a claim call or reaches
      one by its own events alone. */
  lemma SlotsKeepClaiming(namespaces: nat, concurrency: nat, es: seq<Event>, s: nat)
    requires Run(Start(namespaces, concurrency), es) && !After(Start(namespaces, concurrency), es).stopping && s < concurrency
    ensures var w := After(Start(namespaces, concurrency), es);
      && s < |w.slots|
      && var fs := ToClaim(w.slots[s], s);
      && Run(w, fs) && (forall i :: 0 <= i < |fs| ==> Own(fs[i], s))
      && After(w, fs).slots == w.slots[s := Claiming] && !After(w, fs).stopping
  {
    RunKeepsManned(Start(namespaces, concurrency), es);
    SlotClaims(After(Start(namespaces, concurrency), es), s);
  }

  lemma RunsOne(w: Worker, e: Event)
    requires Enabled(w, e)
    ensures Run(w, [e]) && After(w, [e]) == Next(w, e)
  {
    assert [e][1..] == [] && After(Next(w, e), []) == Next(w, e);
  }

  lemma RunsTwo(w: Worker, e: Event, f: Event)
    requires Enabled(w, e) && Enabled(Next(w, e), f)
    ensures Run(w, [e, f]) && After(w, [e, f]) == Next(Next(w, e), f)
  {
    assert [e, f][1..] == [f];
    RunsOne(Next(w, e), f);
  }

  lemma RunsThree(w: Worker, e: Event, f: Event, g: Event)
    requires Enabled(w, e) && Enabled(Next(w, e), f) && Enabled(Next(Next(w, e), f), g)
    ensures Run(w, [e, f, g]) && After(w, [e, f, g]) == Next(Next(Next(w, e), f), g)
  {
    assert [e, f, g][1..] == [f, g];
    RunsTwo(Next(w, e), f, g);
  }

  lemma SlotClaims(w: Worker, s: nat)
    requires s < |w.slots| && !w.stopping && Manned(w)
    ensures var fs := ToClaim(w.slots[s], s);
      && Run(w, fs) && (forall i :: 0 <= i < |fs| ==> Own(fs[i], s))
      && After(w, fs).slots == w.slots[s := Claiming] && !After(w, fs).stopping
  {
    match w.slots[s]
    case Top => RunsOne(w, SlotTurn(s));
    case Sleeping => BackToTop(w, s, SlotWoke(s));
    case Releasing(_, _) => BackToTop(w, s, ReleaseReturned(s));
    case Executing(_, _) => BackToTop(w, s, ExecutionEnded(s));
    case _ =>
  }

  lemma BackToTop(w: Worker, s: nat, e: Event)
    requires s < |w.slots| && !w.stopping && Enabled(w, e) && Own(e, s)
    requires Next(w, e).slots == w.slots[s := Top] && !Next(w, e).stopping && Next(w, e).leads == w.leads
    ensures Run(w, [e, SlotTurn(s)]) && |After(w, [e, SlotTurn(s)]).leads| == |w.leads| + 1
    ensures After(w, [e, SlotTurn(s)]).slots == w.slots[s := Claiming]
    ensures !After(w, [e, SlotTurn(s)]).stopping
  {
    RunsTwo(w, e, SlotTurn(s));
  }

  /** What a slot still does once the worker is stopping, given the answer to a claim call that is out. */
  function ToExit(slot: Slot, s: nat, reply: ClaimReply): seq<Event> {
    match slot
    case Top => [SlotTurn(s)]
    case Claiming =>
      (match reply
       case ClaimError => [ClaimReturned(s, reply)]
       case Nothing => [ClaimReturned(s, reply), SlotWoke(s), SlotTurn(s)]
       case Claimed(_, _) => [ClaimReturned(s, reply), ReleaseReturned(s)])
    case Sleeping => [SlotWoke(s), SlotTurn(s)]
    case Releasing(_, exits) => if exits then [ReleaseReturned(s)] else [ReleaseReturned(s), SlotTurn(s)]
    case Executing(_, _) => [ExecutionEnded(s), SlotTurn(s)]
    case Exited => []
  }

  lemma TurnExits(w: Worker, s: nat, e: Event)
    requires s < |w.slots| && w.stopping && Enabled(w, e) && Next(w, e).slots == w.slots[s := Top] && Next(w, e).stopping
    requires Next(w, e).leads == w.leads && Next(w, e).executors == w.executors
    ensures var es := [e, SlotTurn(s)]; Run(w, es) && Leaves(w, After(w, es), s)
  {
    RunsTwo(w, e, SlotTurn(s));
  }

  /** The slot has left its loop, without a claim call and without an execution. */
  predicate Leaves(w: Worker, q: Worker, s: nat) {
    s < |w.slots| && q.slots == w.slots[s := Exited] && q.leads == w.leads && q.executors == w.executors
  }

  /** Once the worker is stopping every slot leaves its loop by its own events, whatever a claim call that
      is out answers: an error ends it at once, and a run it is given is handed back. */
  lemma SlotsLeave(w: Worker, s: nat, reply: ClaimReply)
    requires s < |w.slots| && w.stopping
    ensures var es := ToExit(w.slots[s], s, reply); Run(w, es) && Leaves(w, After(w, es), s)
  {
    match w.slots[s]
    case Top => RunsOne(w, SlotTurn(s));
    case Sleeping => TurnExits(w, s, SlotWoke(s));
    case Releasing(_, exits) => if exits { RunsOne(w, ReleaseReturned(s)); } else { TurnExits(w, s, ReleaseReturned(s)); }
    case Executing(_, _) => TurnExits(w, s, ExecutionEnded(s));
    case Claiming => ClaimLeaves(w, s, reply);
    case Exited => assert w.slots[s := Exited] == w.slots;
  }

  lemma ClaimLeaves(w: Worker, s: nat, reply: ClaimReply)
    requires s < |w.slots| && w.stopping && w.slots[s] == Claiming
    ensures var es := ToExit(Claiming, s, reply); Run(w, es) && Leaves(w, After(w, es), s)
  {
    var e := ClaimReturned(s, reply);
    match reply
    case ClaimError => RunsOne(w, e);
    case Claimed(_, _) => RunsTwo(w, e, ReleaseReturned(s));
    case Nothing =>
      TurnExits(Next(w, e), s, SlotWoke(s));
      assert [e, SlotWoke(s), SlotTurn(s)][1..] == [SlotWoke(s), SlotTurn(s)];
  }

  /** A run it was given and knows the task of is executed by a new executor, which the map then
      holds for it; a run of an unknown task is handed back. */
  lemma ClaimServed(w: Worker, s: nat, run: RunId, known: bool)
    requires Enabled(w, ClaimReturned(s, Claimed(run, known))) && !w.stopping
    ensures var q := Next(w, ClaimReturned(s, Claimed(run, known)));
      if known then
        && q.slots == w.slots[s := Executing(run, w.executors)] && q.executors == w.executors + 1
        && q.inFlight == w.inFlight[run := w.executors]
      else q.slots == w.slots[s := Releasing(run, false)] && q.executors == w.executors && q.inFlight == w.inFlight
  {
  }

  /* ---- what a heartbeat renews ---- */

  predicate Executes(w: Worker, run: RunId) {
    exists s :: 0 <= s < |w.slots| && Runs(w.slots[s], run)
  }

  /** No claim returns a run that one of this worker's slots still executes. */
  predicate NeverReclaims(w: Worker, es: seq<Event>)
    requires Run(w, es)
    decreases es
  {
    es == [] || (
      && (es[0].ClaimReturned? && es[0].reply.Claimed? ==> !Executes(w, es[0].reply.run))
      && NeverReclaims(Next(w, es[0]), es[1..]))
  }

  predicate Exact(w: Worker) {
    && (forall s :: 0 <= s < |w.slots| && w.slots[s].Executing? ==>
          w.slots[s].run in w.inFlight && w.inFlight[w.slots[s].run] == w.slots[s].executor)
    && (forall s, t :: 0 <= s < t < |w.slots| && w.slots[s].Executing? && w.slots[t].Executing? ==>
          w.slots[s].run != w.slots[t].run)
  }

  lemma ClaimKeepsExact(w: Worker, s: nat, reply: ClaimReply)
    requires Exact(w) && Enabled(w, ClaimReturned(s, reply)) && (reply.Claimed? ==> !Executes(w, reply.run))
    ensures Exact(Next(w, ClaimReturned(s, reply)))
  {
    if reply.Claimed? {
      forall t | 0 <= t < |w.slots| && w.slots[t].Executing? ensures w.slots[t].run != reply.run {
        assert Runs(w.slots[t], w.slots[t].run);
      }
    }
  }

  lemma EndKeepsExact(w: Worker, s: nat)
    requires Exact(w) && Enabled(w, ExecutionEnded(s))
    ensures Exact(Next(w, ExecutionEnded(s)))
  {
    var q := Next(w, ExecutionEnded(s));
    assert forall t :: 0 <= t < |w.slots| && t != s ==> q.slots[t] == w.slots[t];
  }

  lemma NextKeepsExact(w: Worker, e: Event)
    requires Exact(w) && Enabled(w, e)
    requires e.ClaimReturned? && e.reply.Claimed? ==> !Executes(w, e.reply.run)
    ensures Exact(Next(w, e))
  {
    if e.ClaimReturned? {
      ClaimKeepsExact(w, e.slot, e.reply);
    } else if e.ExecutionEnded? {
      EndKeepsExact(w, e.slot);
    } else {
      var q := Next(w, e);
      assert q.inFlight == w.inFlight;
      assert forall t :: 0 <= t < |w.slots| && q.slots[t].Executing? ==> q.slots[t] == w.slots[t];
    }
  }

  /** The in-flight map names exactly the runs being executed. */
  ghost predicate Covers(w: Worker) {
    forall run :: run in w.inFlight <==> Executes(w, run)
  }

  /** At this moment and after every further event. */
  ghost predicate AlwaysCovers(w: Worker, es: seq<Event>)
    requires Run(w, es)
    decreases es
  {
    Covers(w) && (es == [] || AlwaysCovers(Next(w, es[0]), es[1..]))
  }

  /** An execution ends while another slot executes the same run. */
  predicate EndsShared(w: Worker, e: Event)
    requires Enabled(w, e)
  {
    e.ExecutionEnded? && exists t :: 0 <= t < |w.slots| && t != e.slot && Runs(w.slots[t], w.slots[e.slot].run)
  }

  predicate NeverEndsShared(w: Worker, es: seq<Event>)
    requires Run(w, es)
    decreases es
  {
    es == [] || (!EndsShared(w, es[0]) && NeverEndsShared(Next(w, es[0]), es[1..]))
  }

  lemma EndCoversExactly(w: Worker, s: nat)
    requires Covers(w) && Enabled(w, ExecutionEnded(s))
    ensures Covers(Next(w, ExecutionEnded(s))) <==> !EndsShared(w, ExecutionEnded(s))
  {
    var q, gone := Next(w, ExecutionEnded(s)), w.slots[s].run;
    if t :| 0 <= t < |w.slots| && t != s && Runs(w.slots[t], gone) {
      assert Runs(q.slots[t], gone);
      assert Executes(q, gone) && gone !in q.inFlight;
    } else {
      forall run ensures run in q.inFlight <==> Executes(q, run) {
        if run != gone && Executes(w, run) {
          var t :| 0 <= t < |w.slots| && Runs(w.slots[t], run);
          assert Runs(q.slots[t], run);
        }
        if Executes(q, run) {
          var t :| 0 <= t < |q.slots| && Runs(q.slots[t], run);
          assert t != s && Runs(w.slots[t], run);
        }
      }
    }
  }

  lemma ClaimCovers(w: Worker, s: nat, reply: ClaimReply)
    requires Covers(w) && Enabled(w, ClaimReturned(s, reply))
    ensures Covers(Next(w, ClaimReturned(s, reply)))
  {
    var q := Next(w, ClaimReturned(s, reply));
    if q.slots[s].Executing? { assert Runs(q.slots[s], reply.run); }
    SlotsCover(w, q, s);
  }

  /** Slot `s` was executing nothing, and the map has gained at most what it executes now. */
  lemma SlotsCover(w: Worker, q: Worker, s: nat)
    requires Covers(w) && s < |w.slots| == |q.slots| && !w.slots[s].Executing?
    requires forall t :: 0 <= t < |w.slots| && t != s ==> q.slots[t] == w.slots[t]
    requires forall run :: run in q.inFlight <==> run in w.inFlight || Runs(q.slots[s], run)
    ensures Covers(q)
  {
    forall run ensures run in q.inFlight <==> Executes(q, run) {
      if Executes(w, run) {
        var t :| 0 <= t < |w.slots| && Runs(w.slots[t], run);
        assert Runs(q.slots[t], run);
      }
      if Executes(q, run) {
        var t :| 0 <= t < |q.slots| && Runs(q.slots[t], run);
        assert t != s ==> Runs(w.slots[t], run);
      }
    }
  }

  /** One event keeps the map exact if and only if it does not end one of two executions of a run. */
  lemma NextCoversExactly(w: Worker, e: Event)
    requires Covers(w) && Enabled(w, e)
    ensures Covers(Next(w, e)) <==> !EndsShared(w, e)
  {
    match e
    case ExecutionEnded(s) => EndCoversExactly(w, s);
    case ClaimReturned(s, reply) => ClaimCovers(w, s, reply);
    case SlotTurn(s) => SlotsCover(w, Next(w, e), s);
    case SlotWoke(s) => SlotsCover(w, Next(w, e), s);
    case ReleaseReturned(s) => SlotsCover(w, Next(w, e), s);
    case _ =>
      assert Next(w, e).slots == w.slots && Next(w, e).inFlight == w.inFlight;
      assert forall run :: Executes(Next(w, e), run) <==> Executes(w, run);
  }

  lemma {:induction false} RunCoversExactly(w: Worker, es: seq<Event>)
    requires Covers(w) && Run(w, es)
    ensures AlwaysCovers(w, es) <==> NeverEndsShared(w, es)
    decreases es
  {
    if es != [] {
      NextCoversExactly(w, es[0]);
      if Covers(Next(w, es[0])) {
        RunCoversExactly(Next(w, es[0]), es[1..]);
      } else {
        assert !AlwaysCovers(Next(w, es[0]), es[1..]);
      }
    }
  }

  lemma {:induction false} UnsharedIfNeverReclaims(w: Worker, es: seq<Event>)
    requires Exact(w) && Run(w, es) && NeverReclaims(w, es)
    ensures NeverEndsShared(w, es)
    decreases es
  {
    if es != [] {
      assert !EndsShared(w, es[0]);
      NextKeepsExact(w, es[0]);
      UnsharedIfNeverReclaims(Next(w, es[0]), es[1..]);
    }
  }

  /** What a heartbeat asks for is being executed, always. It asks for all that is executed, at every
      moment of a run, if and only if no execution ends while another slot executes the same run;
      which cannot happen unless a run is claimed again by the worker that still unwinds it. */
  lemma HeartbeatCoversExecutions(namespaces: nat, concurrency: nat, es: seq<Event>)
    requires Run(Start(namespaces, concurrency), es)
    ensures forall run :: run in After(Start(namespaces, concurrency), es).inFlight ==>
      Executes(After(Start(namespaces, concurrency), es), run)
    ensures AlwaysCovers(Start(namespaces, concurrency), es) <==> NeverEndsShared(Start(namespaces, concurrency), es)
    ensures NeverReclaims(Start(namespaces, concurrency), es) ==> NeverEndsShared(Start(namespaces, concurrency), es)
  {
    StartSound(namespaces, concurrency);
    var start := Start(namespaces, concurrency);
    RunKeepsSound(start, es);
    RunCoversExactly(start, es);
    if NeverReclaims(start, es) { UnsharedIfNeverReclaims(start, es); }
  }

  /** Two slots claim the same run, one after the other. */
  function Reclaim(run: RunId): seq<Event> {
    [SlotTurn(0), ClaimReturned(0, Claimed(run, true)), SlotTurn(1), ClaimReturned(1, Claimed(run, true))]
  }

  lemma ReclaimRuns(run: RunId)
    ensures Run(Start(1, 2), Reclaim(run))
    ensures var w := After(Start(1, 2), Reclaim(run));
      w.slots == [Executing(run, 0), Executing(run, 1)] && w.inFlight == map[run := 1] && w.told == {} && w.shutdown.Serving?
  {
    var w0, es := Start(1, 2), Reclaim(run);
    var w1 := Next(w0, es[0]);
    var w2 := Next(w1, es[1]);
    var w3 := Next(w2, es[2]);
    var w4 := Next(w3, es[3]);
    RunsTwo(w2, es[2], es[3]);
    RunsThree(w1, es[1], es[2], es[3]);
    assert es[1..] == [es[1], es[2], es[3]];
  }

  /** When a run is claimed again while its older executor unwinds, the older one's exit takes the
      newer one's entry away: it executes on without renewal. */
  lemma ReclaimLosesRenewal(run: RunId)
    ensures Run(Start(1, 2), Reclaim(run)) && Enabled(After(Start(1, 2), Reclaim(run)), ExecutionEnded(0))
    ensures var q := Next(After(Start(1, 2), Reclaim(run)), ExecutionEnded(0)); Executes(q, run) && run !in q.inFlight
  {
    ReclaimRuns(run);
    assert Runs(Next(After(Start(1, 2), Reclaim(run)), ExecutionEnded(0)).slots[1], run);
  }

  /* ---- whom stop tells ---- */

  /** The map holds the executor of this slot. */
  predicate Held(w: Worker, s: nat) {
    s < |w.slots| && w.slots[s].Executing? && w.slots[s].run in w.inFlight && w.inFlight[w.slots[s].run] == w.slots[s].executor
  }

  predicate Unshared(w: Worker) {
    forall s, t :: 0 <= s < t < |w.slots| && w.slots[s].Executing? && w.slots[t].Executing? ==> w.slots[s].run != w.slots[t].run
  }

  /** Once stopping, nobody else is told and nobody starts to work. */
  predicate Winds(w: Worker, q: Worker) {
    && q.stopping && q.told == w.told && |q.slots| == |w.slots|
    && forall s :: 0 <= s < |w.slots| && q.slots[s].Executing? ==> q.slots[s] == w.slots[s]
  }

  lemma NextWinds(w: Worker, e: Event)
    requires Staged(w) && w.stopping && Enabled(w, e)
    ensures Winds(w, Next(w, e))
  {
  }

  lemma {:induction false} StoppingWinds(w: Worker, es: seq<Event>)
    requires Staged(w) && Chained(w) && w.stopping && Run(w, es)
    ensures Winds(w, After(w, es))
    decreases es
  {
    if es != [] {
      NextWinds(w, es[0]);
      NextKeepsChained(w, es[0]);
      StoppingWinds(Next(w, es[0]), es[1..]);
    }
  }

  lemma StopTellsTheHeld(w: Worker, s: nat)
    requires Sound(w) && !w.stopping && s < |w.slots| && w.slots[s].Executing?
    ensures w.slots[s].executor in Next(w, StopCalled).told <==> Held(w, s)
  {
    var x := w.slots[s].executor;
    if run :| run in w.inFlight && w.inFlight[run] == x {
      var t :| 0 <= t < |w.slots| && w.slots[t] == Executing(run, w.inFlight[run]);
      assert t == s;
    }
  }

  /** The executors at work after stop were at work when it was called, and those are told to unwind
      that the map held then: those, and no others. */
  lemma StopTells(namespaces: nat, concurrency: nat, es: seq<Event>, fs: seq<Event>, s: nat)
    requires Run(Start(namespaces, concurrency), es) && !After(Start(namespaces, concurrency), es).stopping
    requires Run(Next(After(Start(namespaces, concurrency), es), StopCalled), fs)
    requires var q := After(Next(After(Start(namespaces, concurrency), es), StopCalled), fs); s < |q.slots| && q.slots[s].Executing?
    ensures var w := After(Start(namespaces, concurrency), es); var q := After(Next(w, StopCalled), fs);
      && s < |w.slots| && w.slots[s] == q.slots[s]
      && (q.slots[s].executor in q.told <==> Held(w, s))
  {
    StartSound(namespaces, concurrency);
    RunKeepsSound(Start(namespaces, concurrency), es);
    var w := After(Start(namespaces, concurrency), es);
    NextKeepsSound(w, StopCalled);
    StoppingWinds(Next(w, StopCalled), fs);
    StopTellsTheHeld(w, s);
  }

  lemma HeldIfAlone(w: Worker, s: nat)
    requires Sound(w) && Covers(w) && Unshared(w) && s < |w.slots| && w.slots[s].Executing?
    ensures Held(w, s)
  {
    var run := w.slots[s].run;
    assert Runs(w.slots[s], run);
    var t :| 0 <= t < |w.slots| && w.slots[t] == Executing(run, w.inFlight[run]);
    assert t == s;
  }

  lemma AloneIfHeld(w: Worker)
    requires Sound(w) && forall s :: 0 <= s < |w.slots| && w.slots[s].Executing? ==> Held(w, s)
    ensures Covers(w) && Unshared(w)
  {
    forall run ensures run in w.inFlight <==> Executes(w, run) {
      if run in w.inFlight {
        var t :| 0 <= t < |w.slots| && w.slots[t] == Executing(run, w.inFlight[run]);
        assert Runs(w.slots[t], run);
      }
      if s :| 0 <= s < |w.slots| && Runs(w.slots[s], run) {
        assert Held(w, s);
      }
    }
    forall s, t | 0 <= s < t < |w.slots| && w.slots[s].Executing? && w.slots[t].Executing?
      ensures w.slots[s].run != w.slots[t].run
    {
      assert Held(w, s) && Held(w, t);
    }
  }

  /** Stop tells every executor at work if and only if, when it is called, the map names all runs
      being executed and no two slots execute the same one; never claiming a run again while it
      unwinds is enough. */
  lemma StopTellsAll(namespaces: nat, concurrency: nat, es: seq<Event>)
    requires Run(Start(namespaces, concurrency), es) && !After(Start(namespaces, concurrency), es).stopping
    ensures var w := After(Start(namespaces, concurrency), es);
      && ((forall s :: 0 <= s < |w.slots| && w.slots[s].Executing? ==> w.slots[s].executor in Next(w, StopCalled).told)
          <==> Covers(w) && Unshared(w))
      && (NeverReclaims(Start(namespaces, concurrency), es) ==> Covers(w) && Unshared(w))
  {
    StartSound(namespaces, concurrency);
    RunKeepsSound(Start(namespaces, concurrency), es);
    var w := After(Start(namespaces, concurrency), es);
    if Covers(w) && Unshared(w) {
      forall s | 0 <= s < |w.slots| && w.slots[s].Executing? ensures w.slots[s].executor in Next(w, StopCalled).told {
        HeldIfAlone(w, s);
        StopTellsTheHeld(w, s);
      }
    }
    if forall s :: 0 <= s < |w.slots| && w.slots[s].Executing? ==> w.slots[s].executor in Next(w, StopCalled).told {
      forall s | 0 <= s < |w.slots| && w.slots[s].Executing? ensures Held(w, s) {
        StopTellsTheHeld(w, s);
      }
      AloneIfHeld(w);
    }
    if NeverReclaims(Start(namespaces, concurrency), es) {
      RunKeepsExact(Start(namespaces, concurrency), es);
      AloneIfHeld(w);
    }
  }

  lemma {:induction false} RunKeepsExact(w: Worker, es: seq<Event>)
    requires Exact(w) && Run(w, es) && NeverReclaims(w, es)
    ensures Exact(After(w, es))
    decreases es
  {
    if es != [] {
      NextKeepsExact(w, es[0]);
      RunKeepsExact(Next(w, es[0]), es[1..]);
    }
  }

  /** A run claimed again while its older executor unwinds: a stop in between does not tell that one. */
  lemma ReclaimIsNotTold(run: RunId)
    ensures Run(Start(1, 2), Reclaim(run))
    ensures var q := Next(After(Start(1, 2), Reclaim(run)), StopCalled);
      q.stopping && |q.slots| == 2 && q.slots[0] == Executing(run, 0) && 0 !in q.told && 1 in q.told
  {
    ReclaimRuns(run);
    var w := After(Start(1, 2), Reclaim(run));
    assert w.inFlight[run] == 1;
  }
}
