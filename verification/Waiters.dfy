/** The in-process result-waiter registry as a state machine. Each transition is the code
    between two awaits; `now` is the clock it reads. A waiter is named by its place in
    registration order. `seen` is history: the reads applied to the waiter, in order. */
module Waiters {
  import opened Options
  import RunLedger

  type RunId = string
  type Status = RunLedger.Status
  type Value = RunLedger.Value
  const MAX_TIMER_MS := 2147483647
  const DEFAULT_TIMEOUT_MS := 30000.0

  /** One row as read, with its output and error as opaque values. */
  datatype RunRead = RunRead(status: Status, output: Value, error: Value)
  datatype Observation = Found(row: RunRead) | Missing
  datatype ReadResult = Read(reply: Observation) | ReadError

  /** The timeoutMs argument; Forever is Infinity. */
  datatype Timeout = Absent | NotANumber | Milliseconds(ms: real) | Forever
  datatype Refusal = RegistryStopped | AlreadyAborted | BadRequest

  datatype Outcome =
    | Result(row: RunRead) | NotFound
    | Latest(status: Status) | TimedOut(status: Status)
    | Aborted | Stopped | ReadFailed

  datatype Settlement = Settlement(outcome: Outcome, at: real)

  /** An armed timer: when it was set, and the delay asked for. */
  datatype Timer = Timer(setAt: real, delay: int)

  datatype Waiter = Waiter(
    runId: RunId, budget: Option<real>, throwOnTimeout: bool, listening: bool,
    deadline: Option<real>, lastStatus: Option<Status>, timer: Option<Timer>,
    seen: seq<Observation>, readAt: Option<real>, armed: nat)

  /** A Set object of the pending map: captured by identity across an await. */
  datatype Room = Room(id: nat, members: set<nat>)
  datatype Ticket = Ticket(runId: RunId, room: nat)

  datatype Registry = Registry(
    waiters: seq<Waiter>, active: set<nat>, pending: map<RunId, Room>, rooms: nat,
    reading: set<nat>, resolving: multiset<Ticket>, sweeping: Option<seq<nat>>, stopped: bool,
    settled: map<nat, Settlement>)

  const Fresh := Registry([], {}, map[], 0, {}, multiset{}, None, false, map[])

  predicate Terminal(s: Status) {
    s.Completed? || s.Failed? || s.Canceled?
  }

  predicate IsPending(r: Registry, i: nat) {
    i < |r.waiters| && r.waiters[i].runId in r.pending && i in r.pending[r.waiters[i].runId].members
  }

  /* ---- settling ---- */

  function Leave(pending: map<RunId, Room>, run: RunId, i: nat): map<RunId, Room> {
    if run !in pending then pending
    else
      var rest := pending[run].members - {i};
      if rest == {} then pending - {run} else pending[run := pending[run].(members := rest)]
  }

  /** The first event to remove an active waiter settles it; a later one does nothing. */
  function Settle(r: Registry, now: real, i: nat, seen: seq<Observation>, outcome: Outcome): Registry
    requires i < |r.waiters|
  {
    if i !in r.active then r
    else r.(
      waiters := r.waiters[i := r.waiters[i].(timer := None, listening := false, seen := seen)],
      active := r.active - {i}, pending := Leave(r.pending, r.waiters[i].runId, i),
      settled := r.settled[i := Settlement(outcome, now)])
  }

  function TimeoutOutcome(w: Waiter, status: Status): Outcome {
    if w.throwOnTimeout then TimedOut(status) else Latest(status)
  }

  function SettleTimeout(r: Registry, now: real, i: nat): Registry
    requires i < |r.waiters|
  {
    var w := r.waiters[i];
    if w.lastStatus.None? then r else Settle(r, now, i, w.seen, TimeoutOutcome(w, w.lastStatus.value))
  }

  function Ceil(x: real): int {
    -((-x).Floor)
  }

  function Chunk(remaining: real): int {
    if Ceil(remaining) < MAX_TIMER_MS then Ceil(remaining) else MAX_TIMER_MS
  }

  predicate Expired(w: Waiter, now: real) {
    w.deadline.Some? && w.deadline.value <= now
  }

  function ArmDeadline(r: Registry, now: real, i: nat): Registry
    requires i < |r.waiters|
  {
    var w := r.waiters[i];
    if !IsPending(r, i) || w.deadline.None? then r
    else if w.deadline.value - now <= 0.0 then SettleTimeout(r, now, i)
    else r.(waiters := r.waiters[i := w.(timer := Some(Timer(now, Chunk(w.deadline.value - now))), armed := w.armed + 1)])
  }

  /* ---- registering and the initial read ---- */

  predicate Refuses(r: Registry, timeout: Timeout, aborted: bool) {
    r.stopped || aborted || timeout.NotANumber? || (timeout.Milliseconds? && timeout.ms < 0.0)
  }

  function Budget(timeout: Timeout): Option<real> {
    match timeout
    case Absent => Some(DEFAULT_TIMEOUT_MS)
    case NotANumber => None
    case Milliseconds(ms) => Some(ms)
    case Forever => None
  }

  function Register(r: Registry, run: RunId, timeout: Timeout, throwOnTimeout: bool, signal: bool, aborted: bool): Registry {
    if Refuses(r, timeout, signal && aborted) then r
    else
      var i := |r.waiters|;
      r.(waiters := r.waiters + [Waiter(run, Budget(timeout), throwOnTimeout, signal, None, None, None, [], None, 0)],
         active := r.active + {i}, reading := r.reading + {i})
  }

  function Enter(r: Registry, i: nat): Registry
    requires i < |r.waiters|
  {
    var run := r.waiters[i].runId;
    if run in r.pending
    then r.(pending := r.pending[run := r.pending[run].(members := r.pending[run].members + {i})])
    else r.(pending := r.pending[run := Room(r.rooms, {i})], rooms := r.rooms + 1)
  }

  function FirstStatus(w: Waiter, now: real, row: RunRead): Waiter {
    w.(lastStatus := Some(row.status), seen := w.seen + [Found(row)], readAt := Some(now),
       deadline := if w.budget.Some? then Some(now + w.budget.value) else None)
  }

  /** The waiter joins the pending set with its first status and its deadline. */
  function Park(r: Registry, now: real, i: nat, row: RunRead): Registry
    requires i < |r.waiters|
  {
    ArmDeadline(Enter(r.(waiters := r.waiters[i := FirstStatus(r.waiters[i], now, row)]), i), now, i)
  }

  function FirstRead(q: Registry, now: real, i: nat, result: ReadResult): Registry
    requires i < |q.waiters|
  {
    var w := q.waiters[i];
    if result.ReadError? then Settle(q, now, i, w.seen, ReadFailed)
    else if result.reply.Missing? then Settle(q, now, i, w.seen + [Missing], NotFound)
    else if Terminal(result.reply.row.status) then Settle(q, now, i, w.seen + [result.reply], Result(result.reply.row))
    else if w.budget == Some(0.0) then Settle(q, now, i, w.seen + [result.reply], Latest(result.reply.row.status))
    else Park(q, now, i, result.reply.row)
  }

  function InitialRead(r: Registry, now: real, i: nat, result: ReadResult): Registry
    requires i < |r.waiters|
  {
    var q := r.(reading := r.reading - {i});
    if i !in r.active then q else FirstRead(q, now, i, result)
  }

  /* ---- notification and sweep ---- */

  function Observe(r: Registry, i: nat, row: RunRead): Registry
    requires i < |r.waiters|
  {
    r.(waiters := r.waiters[i := r.waiters[i].(lastStatus := Some(row.status), seen := r.waiters[i].seen + [Found(row)])])
  }

  function ResolveOne(r: Registry, now: real, reply: Observation, i: nat): Registry {
    if !IsPending(r, i) then r
    else if reply.Missing? then Settle(r, now, i, r.waiters[i].seen + [Missing], NotFound)
    else if Terminal(reply.row.status) then Settle(r, now, i, r.waiters[i].seen + [reply], Result(reply.row))
    else Observe(r, i, reply.row)
  }

  function ResolveAll(r: Registry, now: real, reply: Observation, entries: seq<nat>): Registry {
    if entries == [] then r
    else ResolveOne(ResolveAll(r, now, reply, entries[..|entries| - 1]), now, reply, entries[|entries| - 1])
  }

  function SweepOne(r: Registry, now: real, rows: map<RunId, RunRead>, i: nat): Registry {
    if !IsPending(r, i) then r
    else if r.waiters[i].runId !in rows then Settle(r, now, i, r.waiters[i].seen + [Missing], NotFound)
    else
      var row := rows[r.waiters[i].runId];
      if Terminal(row.status) then Settle(Observe(r, i, row), now, i, r.waiters[i].seen + [Found(row)], Result(row))
      else if Expired(r.waiters[i], now) then SettleTimeout(Observe(r, i, row), now, i)
      else Observe(r, i, row)
  }

  function SweepAll(r: Registry, now: real, rows: map<RunId, RunRead>, entries: seq<nat>): Registry {
    if entries == [] then r
    else SweepOne(SweepAll(r, now, rows, entries[..|entries| - 1]), now, rows, entries[|entries| - 1])
  }

  function StopOne(r: Registry, now: real, i: nat): Registry {
    if i < |r.waiters| then Settle(r, now, i, r.waiters[i].seen, Stopped) else r
  }

  /** The first `n` waiters ever registered, oldest first. */
  function StopAll(r: Registry, now: real, n: nat): Registry {
    if n == 0 then r else StopOne(StopAll(r, now, n - 1), now, n - 1)
  }

  /* ---- the machine ---- */

  datatype Event =
    | Registered(run: RunId, timeout: Timeout, throwOnTimeout: bool, signal: bool, aborted: bool)
    | InitialReadReturned(i: nat, result: ReadResult)
    | TerminalNotified(run: RunId)
    | ResolveReadReturned(ticket: Ticket, result: ReadResult, entries: seq<nat>)
    | PollTick(entries: seq<nat>)
    | SweepReturned(rows: Option<map<RunId, RunRead>>)
    | DeadlineFired(i: nat)
    | SignalAborted(i: nat)
    | StopCalled

  /** The members, now, of a Set captured before an await: once emptied it left the map for good. */
  function MembersOf(r: Registry, t: Ticket): set<nat> {
    if t.runId in r.pending && r.pending[t.runId].id == t.room then r.pending[t.runId].members else {}
  }

  predicate Lists(entries: seq<nat>, members: set<nat>) {
    (forall i :: i in entries ==> i in members) && (forall i :: i in members ==> i in entries)
  }

  predicate ListsPending(r: Registry, entries: seq<nat>) {
    && (forall i :: i in entries ==> IsPending(r, i))
    && (forall i :: 0 <= i < |r.waiters| && IsPending(r, i) ==> i in entries)
  }

  predicate Enabled(r: Registry, e: Event) {
    match e
    case Registered(_, _, _, _, _) => true
    case InitialReadReturned(i, _) => i in r.reading && i < |r.waiters|
    case TerminalNotified(_) => true
    case ResolveReadReturned(t, _, entries) => t in r.resolving && Lists(entries, MembersOf(r, t))
    case PollTick(entries) => !r.stopped && ListsPending(r, entries)
    case SweepReturned(_) => r.sweeping.Some?
    case DeadlineFired(i) => i < |r.waiters| && r.waiters[i].timer.Some?
    case SignalAborted(i) => i < |r.waiters| && r.waiters[i].listening
    case StopCalled => true
  }

  function Next(r: Registry, now: real, e: Event): Registry
    requires Enabled(r, e)
  {
    match e
    case Registered(run, timeout, throwOnTimeout, signal, aborted) => Register(r, run, timeout, throwOnTimeout, signal, aborted)
    case InitialReadReturned(i, result) => InitialRead(r, now, i, result)
    case TerminalNotified(run) =>
      if run !in r.pending then r else r.(resolving := r.resolving + multiset{Ticket(run, r.pending[run].id)})
    case ResolveReadReturned(t, result, entries) =>
      var q := r.(resolving := r.resolving - multiset{t});
      if result.ReadError? then q else ResolveAll(q, now, result.reply, entries)
    case PollTick(entries) =>
      if r.sweeping.Some? || entries == [] then r else r.(sweeping := Some(entries))
    case SweepReturned(rows) =>
      var q := r.(sweeping := None);
      if rows.None? then q else SweepAll(q, now, rows.value, r.sweeping.value)
    case DeadlineFired(i) => ArmDeadline(r.(waiters := r.waiters[i := r.waiters[i].(timer := None)]), now, i)
    case SignalAborted(i) => Settle(r, now, i, r.waiters[i].seen, Aborted)
    case StopCalled => StopAll(r.(stopped := true), now, |r.waiters|)
  }

  datatype Moment = Moment(now: real, event: Event)

  predicate Run(r: Registry, ms: seq<Moment>)
    decreases ms
  {
    ms == [] || (Enabled(r, ms[0].event) && Run(Next(r, ms[0].now, ms[0].event), ms[1..]))
  }

  function After(r: Registry, ms: seq<Moment>): Registry
    requires Run(r, ms)
    decreases ms
  {
    if ms == [] then r else After(Next(r, ms[0].now, ms[0].event), ms[1..])
  }
}
