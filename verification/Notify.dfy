/** The LISTEN connection that re-establishes itself under generation numbers. Connection `g` is
    the client made by the attempt of generation `g`; `conns[g - 1]` is what became of it. */
module Notify {
  import opened Options

  const MAX_DELAY_MS := 30000

  /** Where an attempt stands: awaiting connect and LISTEN; awaiting end() after a failure; with its
      handlers attached; over. */
  datatype Stage = Connecting | Failing | Live | Over

  /** `ended`: end() was called on the client, or its 'end' was observed. */
  datatype Conn = Conn(stage: Stage, ended: bool)

  /** `armed` holds the timers that are running; `timer` is the handle kept, perhaps of a fired one.
      `failures` is history: attempts scheduled since a connection last went live. */
  datatype Listener = Listener(
    base: nat, stopping: bool, generation: nat, client: Option<nat>, conns: seq<Conn>,
    scheduled: bool, timer: Option<nat>, armed: set<nat>, timers: nat, delay: nat, failures: nat)

  datatype Event =
    | Connected(g: nat) | ConnectFailed(g: nat) | FailedClientEnded(g: nat)
    | ClientError(g: nat) | ClientEnd(g: nat)
    | TimerFired(t: nat) | StopCalled

  /* ---- the transitions ---- */

  predicate IsCurrent(l: Listener, g: nat) {
    !l.stopping && g == l.generation && l.client == Some(g)
  }

  function DoubledDelay(delay: nat): nat {
    if delay * 2 < MAX_DELAY_MS then delay * 2 else MAX_DELAY_MS
  }

  function ScheduleReconnect(l: Listener): Listener {
    if l.stopping || l.scheduled then l
    else l.(scheduled := true, timer := Some(l.timers), armed := l.armed + {l.timers}, timers := l.timers + 1,
            delay := DoubledDelay(l.delay), failures := l.failures + 1)
  }

  function Connect(l: Listener): Listener {
    if l.stopping then l
    else l.(generation := l.generation + 1, client := Some(l.generation + 1), conns := l.conns + [Conn(Connecting, false)])
  }

  predicate Known(l: Listener, g: nat) {
    1 <= g <= |l.conns|
  }

  function At(l: Listener, g: nat): Conn
    requires Known(l, g)
  {
    l.conns[g - 1]
  }

  function Put(l: Listener, g: nat, c: Conn): Listener
    requires Known(l, g)
  {
    l.(conns := l.conns[g - 1 := c])
  }

  function End(l: Listener, g: nat): Listener
    requires Known(l, g)
  {
    Put(l, g, At(l, g).(ended := true))
  }

  function OnConnected(l: Listener, g: nat): Listener
    requires Known(l, g)
  {
    var q := l.(delay := l.base, failures := 0);
    if IsCurrent(l, g) then Put(q, g, Conn(Live, At(l, g).ended))
    else Put(q, g, Conn(Over, At(l, g).ended || !l.stopping))
  }

  function OnFailedClientEnded(l: Listener, g: nat): Listener
    requires Known(l, g)
  {
    var q := Put(l, g, Conn(Over, true));
    var m := if q.client == Some(g) then q.(client := None) else q;
    if g == m.generation then ScheduleReconnect(m) else m
  }

  function OnError(l: Listener, g: nat): Listener
    requires Known(l, g)
  {
    if IsCurrent(l, g) then ScheduleReconnect(End(l, g))
    else if l.stopping then l
    else End(l, g)
  }

  function OnEnd(l: Listener, g: nat): Listener
    requires Known(l, g)
  {
    var q := End(l, g);
    if IsCurrent(l, g) then ScheduleReconnect(q) else q
  }

  function Stop(l: Listener): Listener {
    var q := if l.timer.Some? then l.(armed := l.armed - {l.timer.value}, timer := None, scheduled := false) else l;
    var m := if l.client.Some? && Known(q, l.client.value) then End(q, l.client.value) else q;
    m.(stopping := true, client := None)
  }

  function Start(base: nat): Listener {
    Connect(Listener(base, false, 0, None, [], false, None, {}, 0, base, 0))
  }

  predicate Enabled(l: Listener, e: Event) {
    match e
    case Connected(g) => Known(l, g) && At(l, g).stage.Connecting?
    case ConnectFailed(g) => Known(l, g) && At(l, g).stage.Connecting?
    case FailedClientEnded(g) => Known(l, g) && At(l, g).stage.Failing?
    case ClientError(g) => Known(l, g) && At(l, g).stage.Live?
    case ClientEnd(g) => Known(l, g) && At(l, g).stage.Live?
    case TimerFired(t) => t in l.armed
    case StopCalled => true
  }

  function Next(l: Listener, e: Event): Listener
    requires Enabled(l, e)
  {
    match e
    case Connected(g) => OnConnected(l, g)
    case ConnectFailed(g) => Put(l, g, Conn(Failing, true))
    case FailedClientEnded(g) => OnFailedClientEnded(l, g)
    case ClientError(g) => OnError(l, g)
    case ClientEnd(g) => OnEnd(l, g)
    case TimerFired(t) => Connect(l.(armed := l.armed - {t}, scheduled := false))
    case StopCalled => Stop(l)
  }

  predicate Run(l: Listener, es: seq<Event>)
    decreases es
  {
    es == [] || (Enabled(l, es[0]) && Run(Next(l, es[0]), es[1..]))
  }

  function After(l: Listener, es: seq<Event>): Listener
    requires Run(l, es)
    decreases es
  {
    if es == [] then l else After(Next(l, es[0]), es[1..])
  }

  /* ---- what every interleaving keeps ---- */

  predicate Open(c: Conn) {
    !c.ended
  }

  predicate Trying(l: Listener) {
    Known(l, l.generation) && (At(l, l.generation).stage.Connecting? || At(l, l.generation).stage.Failing?)
  }

  predicate Listening(l: Listener) {
    Known(l, l.generation) && IsCurrent(l, l.generation) && At(l, l.generation) == Conn(Live, false)
  }

  predicate Armed(l: Listener) {
    l.scheduled && l.timer.Some? && l.armed == {l.timer.value}
  }

  predicate Sound(l: Listener) {
    && |l.conns| == l.generation && l.generation > 0
    && (forall g :: 1 <= g < l.generation ==> At(l, g).ended && (At(l, g).stage.Live? || At(l, g).stage.Over?))
    && (l.client.Some? ==> l.client.value == l.generation)
    && (At(l, l.generation).stage.Failing? || At(l, l.generation).stage.Over? ==> At(l, l.generation).ended)
    && (forall t :: t in l.armed ==> l.timer == Some(t) && t < l.timers)
    && if l.stopping then l.armed == {} && l.client.None? && At(l, l.generation).ended
       else
         && (l.scheduled <==> l.armed != {})
         && (At(l, l.generation).stage.Connecting? ==> !l.scheduled && Open(At(l, l.generation)) && l.client.Some?)
         && (At(l, l.generation).stage.Failing? ==> !l.scheduled)
         && (At(l, l.generation).stage.Live? ==> l.client.Some? && (l.scheduled <==> At(l, l.generation).ended))
         && (At(l, l.generation).stage.Over? ==> l.scheduled)
  }

  /** With no failure pending the delay is the base; each further one doubles it up to the cap. */
  predicate Paced(l: Listener) {
    l.delay == Pace(l.base, l.failures)
  }

  function Pace(base: nat, failures: nat): nat {
    if failures == 0 then base else Min(MAX_DELAY_MS, base * Pow2(failures))
  }

  function Pow2(k: nat): nat {
    if k == 0 then 1 else 2 * Pow2(k - 1)
  }

  function Min(a: nat, b: nat): nat {
    if a < b then a else b
  }

  lemma NextKeepsSound(l: Listener, e: Event)
    requires Sound(l) && Enabled(l, e)
    ensures Sound(Next(l, e))
  {
    var q := Next(l, e);
    forall g | 1 <= g < q.generation ensures At(q, g).ended && (At(q, g).stage.Live? || At(q, g).stage.Over?) {
      assert g < l.generation ==> At(l, g).ended && (At(l, g).stage.Live? || At(l, g).stage.Over?);
    }
  }

  lemma PaceDoubles(base: nat, k: nat)
    ensures DoubledDelay(Pace(base, k)) == Pace(base, k + 1)
  {
    assert Pow2(k + 1) == 2 * Pow2(k);
    assert base * Pow2(k + 1) == 2 * (base * Pow2(k));
    assert k == 0 ==> base * Pow2(k) == base;
  }

  lemma NextKeepsPaced(l: Listener, e: Event)
    requires Paced(l) && Enabled(l, e)
    ensures Paced(Next(l, e))
  {
    PaceDoubles(l.base, l.failures);
  }

  lemma {:induction false} RunKeepsSound(l: Listener, es: seq<Event>)
    requires Sound(l) && Paced(l) && Run(l, es)
    ensures Sound(After(l, es)) && Paced(After(l, es))
    ensures l.stopping ==> After(l, es).stopping && After(l, es).timers == l.timers && |After(l, es).conns| == |l.conns|
    decreases es
  {
    if es != [] {
      NextKeepsSound(l, es[0]);
      NextKeepsPaced(l, es[0]);
      RunKeepsSound(Next(l, es[0]), es[1..]);
    }
  }

  /* ---- the promises ---- */

  /** While not stopping, exactly one of three holds: the newest attempt is in progress, its client
      is live and listening, or one reconnect timer is armed. Never silently dead. */
  lemma NeverSilentlyDead(base: nat, es: seq<Event>)
    requires Run(Start(base), es) && !After(Start(base), es).stopping
    ensures var l := After(Start(base), es);
      && (Trying(l) || Listening(l) || Armed(l))
      && !(Trying(l) && Listening(l)) && !(Trying(l) && Armed(l)) && !(Listening(l) && Armed(l))
  {
    RunKeepsSound(Start(base), es);
    var l := After(Start(base), es);
    assert l.scheduled ==> l.armed == {l.timer.value};
  }

  /** At most one client is open, and it is the one of the newest generation; at most one timer
      is armed, and stop() holds its handle. */
  lemma OneClientOneTimer(base: nat, es: seq<Event>, g: nat, h: nat, t: nat, u: nat)
    requires Run(Start(base), es)
    ensures var l := After(Start(base), es);
      && (Known(l, g) && Open(At(l, g)) ==> g == l.generation && l.client == Some(g))
      && (Known(l, g) && Known(l, h) && Open(At(l, g)) && Open(At(l, h)) ==> g == h)
      && (t in l.armed && u in l.armed ==> t == u && l.timer == Some(t))
  {
    RunKeepsSound(Start(base), es);
  }

  /** Only the newest attempt can still be connecting: the superseded branch is never taken
      except under stop(). */
  lemma NoAttemptIsSuperseded(base: nat, es: seq<Event>, g: nat)
    requires Run(Start(base), es) && Enabled(After(Start(base), es), Connected(g))
    ensures IsCurrent(After(Start(base), es), g) || After(Start(base), es).stopping
  {
    RunKeepsSound(Start(base), es);
  }

  /** After stop every client has been ended, no timer runs, and neither is ever made again. */
  lemma StopIsFinal(base: nat, es: seq<Event>, fs: seq<Event>)
    requires Run(Start(base), es) && Run(Stop(After(Start(base), es)), fs)
    ensures var l := After(Stop(After(Start(base), es)), fs);
      && l.armed == {} && l.client.None?
      && l.generation == After(Start(base), es).generation && l.timers == After(Start(base), es).timers
      && forall g :: Known(l, g) ==> At(l, g).ended
  {
    RunKeepsSound(Start(base), es);
    var l := After(Start(base), es);
    NextKeepsSound(l, StopCalled);
    RunKeepsSound(Stop(l), fs);
  }

  /** The next reconnect waits base * 2^k, at most the cap, after k failures in a row. */
  lemma BackoffPace(base: nat, es: seq<Event>)
    requires Run(Start(base), es)
    ensures var l := After(Start(base), es);
      && l.delay == (if l.failures == 0 then base else Min(30000, base * Pow2(l.failures)))
      && (Listening(l) ==> l.delay == base)
  {
    RunKeepsSound(Start(base), es);
    BaseStays(Start(base), es);
    LiveIsReset(Start(base), es);
  }

  lemma {:induction false} BaseStays(l: Listener, es: seq<Event>)
    requires Run(l, es)
    ensures After(l, es).base == l.base
    decreases es
  {
    if es != [] { BaseStays(Next(l, es[0]), es[1..]); }
  }

  lemma {:induction false} LiveIsReset(l: Listener, es: seq<Event>)
    requires Sound(l) && Run(l, es) && (Listening(l) ==> l.failures == 0)
    ensures Listening(After(l, es)) ==> After(l, es).failures == 0
    decreases es
  {
    if es != [] {
      NextKeepsSound(l, es[0]);
      LiveIsReset(Next(l, es[0]), es[1..]);
    }
  }

  /* ---- what each handler does, reachable or not ---- */

  /** One reconnect is scheduled, unless stopping or one is already: a new timer is armed, and the delay
      after it is twice as long, up to 30 seconds. */
  predicate Schedules(l: Listener, q: Listener) {
    if l.stopping || l.scheduled then q == l
    else
      && q.scheduled && q.timer == Some(l.timers) && q.armed == l.armed + {l.timers} && q.timers == l.timers + 1
      && q.delay == (if l.delay * 2 < 30000 then l.delay * 2 else 30000) && q.failures == l.failures + 1
      && q == l.(scheduled := true, timer := q.timer, armed := q.armed, timers := q.timers, delay := q.delay, failures := q.failures)
  }

  predicate Ends(l: Listener, q: Listener, g: nat, stage: Stage, ended: bool)
    requires Known(l, g)
  {
    q == l.(conns := l.conns[g - 1 := Conn(stage, ended)])
  }

  /** A connection that comes up resets the delay; it goes live if it is the newest, kept and not
      stopping, and is otherwise put down: ended here, or under stop by stop itself. */
  lemma ConnectionUp(l: Listener, g: nat)
    requires Enabled(l, Connected(g))
    ensures var current := !l.stopping && g == l.generation && l.client == Some(g);
      Ends(l.(delay := l.base, failures := 0), Next(l, Connected(g)), g, if current then Live else Over,
           At(l, g).ended || (!current && !l.stopping))
  {
  }

  /** A failed attempt ends its client first; then it forgets it, and schedules a reconnect only if no
      newer attempt owns the recovery. */
  lemma AttemptFailed(l: Listener, g: nat)
    requires Known(l, g)
    ensures Enabled(l, ConnectFailed(g)) ==> Ends(l, Next(l, ConnectFailed(g)), g, Failing, true)
    ensures Enabled(l, FailedClientEnded(g)) ==>
      var m := l.(conns := l.conns[g - 1 := Conn(Over, true)], client := if l.client == Some(g) then None else l.client);
      if g == l.generation then Schedules(m, Next(l, FailedClientEnded(g))) else Next(l, FailedClientEnded(g)) == m
  {
  }

  /** An error or the end of the current connection schedules one reconnect; of a stale one it only sees
      to it that it is ended. */
  lemma ConnectionLost(l: Listener, g: nat)
    requires Enabled(l, ClientError(g))
    ensures var current := !l.stopping && g == l.generation && l.client == Some(g);
      var ended := l.(conns := l.conns[g - 1 := At(l, g).(ended := true)]);
      && (if current then Schedules(ended, Next(l, ClientError(g)))
          else Next(l, ClientError(g)) == if l.stopping then l else ended)
      && (if current then Schedules(ended, Next(l, ClientEnd(g))) else Next(l, ClientEnd(g)) == ended)
  {
  }

  /** A timer that fires makes the next attempt, with a client of its own; under stop it makes none. */
  lemma TimerConnects(l: Listener, t: nat)
    requires Enabled(l, TimerFired(t))
    ensures var q := Next(l, TimerFired(t));
      && q.armed == l.armed - {t} && !q.scheduled
      && (l.stopping ==> q.generation == l.generation && q.conns == l.conns && q.client == l.client)
      && (!l.stopping ==> q.generation == l.generation + 1 && q.client == Some(l.generation + 1)
                          && q.conns == l.conns + [Conn(Connecting, false)])
  {
  }

  /* ---- the object ---- */

  class NotifyListener {
    const base: nat
    var stopping: bool
    var generation: nat
    var client: Option<nat>
    var conns: seq<Conn>
    var reconnectScheduled: bool
    var reconnectTimer: Option<nat>
    var armed: set<nat>
    var timers: nat
    var reconnectDelayMs: nat
    ghost var failures: nat

    ghost function View(): Listener
      reads this
    {
      Listener(base, stopping, generation, client, conns, reconnectScheduled, reconnectTimer, armed, timers,
               reconnectDelayMs, failures)
    }

    /** What every history keeps of the clients, the timers and the delay. */
    ghost predicate Valid()
      reads this
    {
      Sound(View()) && Paced(View())
    }

    constructor (base: nat)
      ensures Valid() && View() == Start(base)
    {
      this.base, stopping, generation, client, conns := base, false, 0, None, [];
      reconnectScheduled, reconnectTimer, armed, timers := false, None, {}, 0;
      reconnectDelayMs, failures := base, 0;
      new;
      Dial();
    }

    predicate Current(g: nat)
      reads this
    {
      !stopping && g == generation && client == Some(g)
    }

    method Dial()
      modifies `generation, `client, `conns
      ensures View() == Connect(old(View()))
    {
      if stopping { return; }
      generation := generation + 1;
      client := Some(generation);
      conns := conns + [Conn(Connecting, false)];
    }

    method Reconnect()
      modifies `reconnectScheduled, `reconnectTimer, `armed, `timers, `reconnectDelayMs, `failures
      ensures View() == ScheduleReconnect(old(View()))
    {
      if stopping || reconnectScheduled { return; }
      reconnectScheduled := true;
      reconnectTimer, armed, timers := Some(timers), armed + {timers}, timers + 1;
      reconnectDelayMs := if reconnectDelayMs * 2 < MAX_DELAY_MS then reconnectDelayMs * 2 else MAX_DELAY_MS;
      failures := failures + 1;
    }

    method EndClient(g: nat)
      requires 1 <= g <= |conns|
      modifies `conns
      ensures View() == End(old(View()), g)
    {
      conns := conns[g - 1 := conns[g - 1].(ended := true)];
    }

    method Established(g: nat)
      requires Valid() && Enabled(View(), Connected(g))
      modifies this
      ensures Valid() && View() == Next(old(View()), Connected(g))
    {
      NextKeepsSound(View(), Connected(g));
      NextKeepsPaced(View(), Connected(g));
      reconnectDelayMs, failures := base, 0;
      if !Current(g) {
        if !stopping { EndClient(g); }
        conns := conns[g - 1 := conns[g - 1].(stage := Over)];
        return;
      }
      conns := conns[g - 1 := conns[g - 1].(stage := Live)];
    }

    method Refused(g: nat)
      requires Valid() && Enabled(View(), ConnectFailed(g))
      modifies this
      ensures Valid() && View() == Next(old(View()), ConnectFailed(g))
    {
      ghost var was := View();
      NextKeepsSound(View(), ConnectFailed(g));
      NextKeepsPaced(View(), ConnectFailed(g));
      EndClient(g);
      conns := conns[g - 1 := conns[g - 1].(stage := Failing)];
      assert View() == Next(was, ConnectFailed(g));
    }

    method RefusedClientEnded(g: nat)
      requires Valid() && Enabled(View(), FailedClientEnded(g))
      modifies this
      ensures Valid() && View() == Next(old(View()), FailedClientEnded(g))
    {
      NextKeepsSound(View(), FailedClientEnded(g));
      NextKeepsPaced(View(), FailedClientEnded(g));
      conns := conns[g - 1 := Conn(Over, true)];
      if client == Some(g) { client := None; }
      if !stopping && g == generation { Reconnect(); }
    }

    method OnClientError(g: nat)
      requires Valid() && Enabled(View(), ClientError(g))
      modifies this
      ensures Valid() && View() == Next(old(View()), ClientError(g))
    {
      NextKeepsSound(View(), ClientError(g));
      NextKeepsPaced(View(), ClientError(g));
      if !Current(g) {
        if !stopping { EndClient(g); }
        return;
      }
      EndClient(g);
      Reconnect();
    }

    method OnClientEnd(g: nat)
      requires Valid() && Enabled(View(), ClientEnd(g))
      modifies this
      ensures Valid() && View() == Next(old(View()), ClientEnd(g))
    {
      NextKeepsSound(View(), ClientEnd(g));
      NextKeepsPaced(View(), ClientEnd(g));
      var current := Current(g);
      EndClient(g);
      if stopping || !current { return; }
      Reconnect();
    }

    method OnTimer(t: nat)
      requires Valid() && t in armed
      modifies this
      ensures Valid() && View() == Next(old(View()), TimerFired(t))
    {
      NextKeepsSound(View(), TimerFired(t));
      NextKeepsPaced(View(), TimerFired(t));
      armed, reconnectScheduled := armed - {t}, false;
      Dial();
    }

    method Close()
      requires Valid()
      modifies this
      ensures Valid() && View() == Next(old(View()), StopCalled)
    {
      NextKeepsSound(View(), StopCalled);
      NextKeepsPaced(View(), StopCalled);
      stopping := true;
      if reconnectTimer.Some? {
        armed, reconnectTimer, reconnectScheduled := armed - {reconnectTimer.value}, None, false;
      }
      var c := client;
      client := None;
      if c.Some? { EndClient(c.value); }
    }
  }
}
