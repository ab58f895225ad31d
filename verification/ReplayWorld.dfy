/** The run and every pass ever started on it, in one interleaving. Passes of lost claims keep
    going until they notice; a pass that takes no further event has crashed. A write may fail for
    its caller and commit all the same: before the caller is told, after it, or never. */
module ReplayWorld {
  import opened Options
  import opened RunLedger
  import opened Replay
  import Fencing

  /** One invocation of a step's fn. */
  datatype FnCall = FnCall(token: nat, pos: nat)

  /** One accepted fenced write. */
  datatype AcceptedWrite = AcceptedWrite(token: nat, req: Request, reply: Reply)

  /** A write its pass has been told had failed, and which may still reach the database. `number`
      is its place among the writes of its pass. */
  datatype LateWrite = LateWrite(worker: nat, token: nat, number: nat, req: Request)

  /** Passes are named by the token of their claim. `calls` and `writes` are history. */
  datatype World = World(run: Run, passes: map<nat, Pass>, calls: seq<FnCall>, writes: seq<AcceptedWrite>, late: set<LateWrite>)

  datatype Event =
    | Claimed(worker: nat, preflight: Preflight)
    | Other(t: Fencing.Transaction)
    | Turn(token: nat, now: Value)
    | FnSettles(token: nat, outcome: FnOutcome)
    | Commits(token: nat, found: Circumstance)
    | RequestLost(token: nat)
    | Arrives(write: LateWrite, found: Circumstance)
    | ReplyLost(token: nat)
    | Delivered(token: nat)
    | Marked(token: nat, reason: AbortReason)

  /** Transactions nobody's claim guards; the fenced writes and claims have events of their own. */
  predicate Unfenced(t: Fencing.Transaction) {
    !t.Write? && !t.ClaimBy?
  }

  predicate Outstanding(p: Pass) {
    p.phase.Calling? && p.reply.None?
  }

  function LateOf(p: Pass): LateWrite
    requires p.phase.Calling?
  {
    LateWrite(p.worker, p.token, |p.issued|, p.phase.req)
  }

  predicate Enabled(w: World, e: Event) {
    match e
    case Claimed(_, _) => Claimable(w.run)
    case Other(t) => Unfenced(t)
    case Turn(k, _) => k in w.passes && w.passes[k].phase.BodyTurn?
    case FnSettles(k, _) => k in w.passes && w.passes[k].phase.InFn?
    case Commits(k, _) => k in w.passes && Outstanding(w.passes[k])
    case RequestLost(k) => k in w.passes && Outstanding(w.passes[k])
    case Arrives(l, _) => l in w.late
    case ReplyLost(k) => k in w.passes && w.passes[k].phase.Calling? && w.passes[k].reply.Some?
    case Delivered(k) => k in w.passes && w.passes[k].phase.Calling? && w.passes[k].reply.Some?
    case Marked(k, _) => k in w.passes
  }

  function Next(code: Code, w: World, e: Event): World
    requires Enabled(w, e)
  {
    match e
    case Claimed(worker, preflight) =>
      var run := Claim(w.run, worker);
      w.(run := run, passes := w.passes[run.token := Start(worker, run, preflight)])
    case Other(t) => w.(run := Fencing.Apply(w.run, t))
    case Turn(k, now) =>
      var p := TakeTurn(code, w.passes[k], now);
      w.(passes := w.passes[k := p],
         calls := if p.phase.InFn? then w.calls + [FnCall(k, p.phase.pos)] else w.calls)
    case FnSettles(k, outcome) => w.(passes := w.passes[k := FnSettled(code, w.passes[k], outcome)])
    case Commits(k, found) =>
      var p := w.passes[k];
      var v := Commit(w.run, p.worker, p.token, p.phase.req, found);
      w.(run := v.run, passes := w.passes[k := p.(reply := Some(v.reply))],
         writes := if Accepts(w.run, p.worker, p.token) then w.writes + [AcceptedWrite(k, p.phase.req, v.reply)] else w.writes)
    case RequestLost(k) =>
      w.(passes := w.passes[k := w.passes[k].(reply := Some(Failure))], late := w.late + {LateOf(w.passes[k])})
    case Arrives(l, found) =>
      var v := Commit(w.run, l.worker, l.token, l.req, found);
      w.(run := v.run, late := w.late - {l},
         writes := if Accepts(w.run, l.worker, l.token) then w.writes + [AcceptedWrite(l.token, l.req, v.reply)] else w.writes)
    case ReplyLost(k) => w.(passes := w.passes[k := w.passes[k].(reply := Some(Failure))])
    case Delivered(k) => w.(passes := w.passes[k := Deliver(w.passes[k])])
    case Marked(k, reason) => w.(passes := w.passes[k := Mark(w.passes[k], reason)])
  }

  /** A history: events in order, those that cannot happen skipped. */
  function History(code: Code, w: World, es: seq<Event>): World
    decreases es
  {
    if es == [] then w
    else History(code, if Enabled(w, es[0]) then Next(code, w, es[0]) else w, es[1..])
  }

  function Initial(run: Run): World {
    World(run, map[], [], [], {})
  }

  /** The transaction an event is, if it is one. */
  function TransactionOf(w: World, e: Event): Option<Fencing.Transaction>
    requires Enabled(w, e)
  {
    match e
    case Claimed(worker, _) => Some(Fencing.ClaimBy(worker))
    case Other(t) => Some(t)
    case Commits(k, found) => Some(Fencing.Write(w.passes[k].worker, w.passes[k].token, w.passes[k].phase.req, found))
    case Arrives(l, found) => Some(Fencing.Write(l.worker, l.token, l.req, found))
    case _ => None
  }

  /** Every event is one transaction on the rows or leaves them alone, so everything proved
      about the rows' histories holds under any number of passes. */
  lemma NextIsTransaction(code: Code, w: World, e: Event)
    requires Enabled(w, e)
    ensures Next(code, w, e).run ==
            var t := TransactionOf(w, e); if t.Some? then Fencing.Apply(w.run, t.value) else w.run
  {
  }

  lemma HistoryCons(code: Code, w: World, e: Event, es: seq<Event>)
    requires Enabled(w, e)
    ensures History(code, w, [e] + es) == History(code, Next(code, w, e), es)
  {
    assert ([e] + es)[1..] == es;
  }

  lemma HistoryStep(code: Code, w: World, es: seq<Event>)
    requires es != [] && Enabled(w, es[0])
    ensures History(code, w, es) == History(code, Next(code, w, es[0]), es[1..])
  {
  }

  lemma HistoryConcat(code: Code, w: World, es: seq<Event>, fs: seq<Event>)
    ensures History(code, w, es + fs) == History(code, History(code, w, es), fs)
    decreases es
  {
    if es == [] {
      assert es + fs == fs;
    } else {
      assert (es + fs)[1..] == es[1..] + fs;
      HistoryConcat(code, if Enabled(w, es[0]) then Next(code, w, es[0]) else w, es[1..], fs);
    }
  }

  /* ---- what links the passes to the rows ---- */

  /** A pass's claim is the run's current one. */
  predicate Holds(w: World, p: Pass) {
    Accepts(w.run, p.worker, p.token)
  }

  ghost predicate SnapshotInLedger(snapshot: Ledger, ledger: Ledger) {
    forall n :: CompletedAt(snapshot, n) ==> CompletedAt(ledger, n) && ledger[n] == snapshot[n]
  }

  /** What a pass never changes. */
  predicate SameClaim(p: Pass, q: Pass) {
    p.worker == q.worker && p.token == q.token && p.attempt == q.attempt && p.snapshot == q.snapshot
  }

  predicate Addresses(e: Event, k: nat) {
    !e.Claimed? && !e.Other? && !e.Arrives? && e.token == k
  }

  /** An event changes at most the pass it addresses. */
  lemma OthersUntouched(code: Code, w: World, e: Event, k: nat)
    requires Enabled(w, e) && k in w.passes && !Addresses(e, k)
    requires e.Claimed? ==> k <= w.run.token
    ensures k in Next(code, w, e).passes && Next(code, w, e).passes[k] == w.passes[k]
  {
  }

  lemma TakeTurnKeepsClaim(code: Code, p: Pass, now: Value)
    ensures SameClaim(p, TakeTurn(code, p, now)) && p.pos <= TakeTurn(code, p, now).pos
  {
  }

  lemma DeliverKeepsClaim(p: Pass)
    requires p.phase.Calling? && p.reply.Some?
    ensures SameClaim(p, Deliver(p)) && p.pos <= Deliver(p).pos
  {
  }

  /** A pass in the new world was there before under the same claim and at no later position, or is
      the one just started. */
  lemma PassesPersist(code: Code, w: World, e: Event, k: nat)
    requires Enabled(w, e) && k in Next(code, w, e).passes
    ensures (k in w.passes && SameClaim(w.passes[k], Next(code, w, e).passes[k])
             && w.passes[k].pos <= Next(code, w, e).passes[k].pos)
         || (e.Claimed? && k == w.run.token + 1 == Next(code, w, e).run.token
             && Next(code, w, e).passes[k] == Start(e.worker, Next(code, w, e).run, e.preflight))
  {
    if e.Turn? { TakeTurnKeepsClaim(code, w.passes[e.token], e.now); }
    if e.Delivered? { DeliverKeepsClaim(w.passes[e.token]); }
  }

  /** Rows written by a transaction carry the current token. */
  lemma ApplyStampsToken(r: Run, t: Fencing.Transaction, n: nat)
    requires Consistent(r)
    requires CompletedAt(Fencing.Apply(r, t).ledger, n) && !CompletedAt(r.ledger, n)
    ensures Fencing.Apply(r, t).ledger[n].claim == r.token
  {
  }

  /** Every event moves the rows as one transaction may. */
  lemma NextAdvances(code: Code, w: World, e: Event)
    requires Consistent(w.run) && Enabled(w, e)
    ensures var r' := Next(code, w, e).run;
            && Consistent(r') && Advances(w.run, r')
            && (forall n :: CompletedAt(r'.ledger, n) && !CompletedAt(w.run.ledger, n) ==> r'.ledger[n].claim == w.run.token)
  {
    NextIsTransaction(code, w, e);
    var t := TransactionOf(w, e);
    if t.Some? {
      Fencing.ApplyKeepsConsistent(w.run, t.value);
      Fencing.ApplyAdvances(w.run, t.value);
      forall n | CompletedAt(Fencing.Apply(w.run, t.value).ledger, n) && !CompletedAt(w.run.ledger, n)
        ensures Fencing.Apply(w.run, t.value).ledger[n].claim == w.run.token
      {
        ApplyStampsToken(w.run, t.value, n);
      }
    }
  }

  /** Only a claim that could write before can write after, and the attempt it runs is the same:
      a failure that moves the attempt on takes the claim away. */
  lemma ApplyKeepsAttempt(r: Run, t: Fencing.Transaction, worker: nat, token: nat)
    requires Consistent(r) && token <= r.token && Accepts(Fencing.Apply(r, t), worker, token)
    ensures Accepts(r, worker, token) && Fencing.Apply(r, t).attempt == r.attempt
  {
  }

  lemma NextKeepsAttempt(code: Code, w: World, e: Event, worker: nat, token: nat)
    requires Consistent(w.run) && Enabled(w, e) && token <= w.run.token && Accepts(Next(code, w, e).run, worker, token)
    ensures Accepts(w.run, worker, token) && Next(code, w, e).run.attempt == w.run.attempt
  {
    NextIsTransaction(code, w, e);
    if TransactionOf(w, e).Some? { ApplyKeepsAttempt(w.run, TransactionOf(w, e).value, worker, token); }
  }

  /** Which pass is linked how: by its name, its snapshot, and what was written before it. */
  ghost predicate LinkedPass(r: Run, k: nat, p: Pass) {
    && p.token == k && 1 <= k <= r.token
    && SnapshotInLedger(p.snapshot, r.ledger)
    && (Accepts(r, p.worker, p.token) ==> p.attempt == r.attempt)
    && (forall n :: CompletedAt(r.ledger, n) && r.ledger[n].claim < k ==> CompletedAt(p.snapshot, n))
  }

  /** Passes carry the tokens they were claimed under; their snapshots are still in the ledger;
      the pass that holds the claim runs the run's current attempt; and a pass has seen, in its snapshot, every row written before its claim. */
  ghost predicate Linked(w: World) {
    Consistent(w.run) && forall k :: k in w.passes ==> LinkedPass(w.run, k, w.passes[k])
  }

  lemma NextKeepsLinked(code: Code, w: World, e: Event)
    requires Linked(w) && Enabled(w, e)
    ensures Linked(Next(code, w, e))
  {
    var w' := Next(code, w, e);
    NextAdvances(code, w, e);
    forall k | k in w'.passes
      ensures LinkedPass(w'.run, k, w'.passes[k])
    {
      PassesPersist(code, w, e, k);
      if k in w.passes && SameClaim(w.passes[k], w'.passes[k]) {
        var p := w.passes[k];
        if Accepts(w'.run, p.worker, p.token) { NextKeepsAttempt(code, w, e, p.worker, p.token); }
      }
    }
  }

  lemma {:induction false} HistoryKeepsLinked(code: Code, w: World, es: seq<Event>)
    requires Linked(w)
    ensures Linked(History(code, w, es))
    decreases es
  {
    if es != [] {
      if Enabled(w, es[0]) { NextKeepsLinked(code, w, es[0]); }
      HistoryKeepsLinked(code, if Enabled(w, es[0]) then Next(code, w, es[0]) else w, es[1..]);
    }
  }
}
