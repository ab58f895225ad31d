/** Which passes run a step's fn, and how often: every invocation beyond the one that is
    recorded is charged to a pass of its own whose claim was lost before the commit. */
module ReplayEffects {
  import opened Options
  import opened RunLedger
  import opened Replay
  import opened ReplayWorld
  import opened ReplayPasses
  import Fencing

  /** The pass has invoked the fn of the step it is executing or reporting. */
  predicate ReportsFn(p: Pass) {
    p.phase.Calling? && StepResult(p.phase.req)
  }

  ghost predicate CallAccounted(w: World, c: FnCall) {
    && c.token in w.passes && c.pos < w.passes[c.token].pos
    && !CompletedAt(w.passes[c.token].snapshot, c.pos)
  }

  /** A pass that runs or reports a fn has invoked it. */
  ghost predicate FnCalled(w: World, k: nat) {
    k in w.passes && (w.passes[k].phase.InFn? || ReportsFn(w.passes[k])) ==>
      w.passes[k].pos > 0 && FnCall(k, w.passes[k].pos - 1) in w.calls
  }

  ghost predicate EffectsAccounted(w: World) {
    && Ordered(w)
    && (forall c :: c in w.calls ==> CallAccounted(w, c))
    && (forall i, j :: 0 <= i < j < |w.calls| ==> w.calls[i] != w.calls[j])
    && (forall k :: FnCalled(w, k))
    && (forall n: nat :: CompletedAt(w.run.ledger, n) && w.run.ledger[n].kind.Step?
          ==> FnCall(w.run.ledger[n].claim, n) in w.calls)
    && (forall l :: l in w.late ==> LateCalled(w, l))
  }

  predicate StepResult(req: Request) {
    req.ReportStep? && req.completed && req.kind.Step?
  }

  /** A step's result on its way comes from an invocation by its own pass. */
  ghost predicate LateCalled(w: World, l: LateWrite) {
    StepResult(l.req) ==> FnCall(l.token, l.req.pos) in w.calls
  }

  predicate TakesPosition(p: Pass, q: Pass) {
    && p.pos <= q.pos && q.snapshot == p.snapshot
    && (q.phase.InFn? ==> q.phase.pos == p.pos && q.pos == p.pos + 1 && !CompletedAt(p.snapshot, p.pos))
    && !ReportsFn(q)
  }

  lemma CallTakesPosition(code: Code, p: Pass, prim: Primitive, now: Value)
    requires p.phase.BodyTurn?
    ensures TakesPosition(p, CallPrimitive(code, p, prim, now))
  {
  }

  lemma TurnTakesPosition(code: Code, p: Pass, now: Value)
    requires WellPhased(p) && p.phase.BodyTurn?
    ensures TakesPosition(p, TakeTurn(code, p, now))
  {
    var action := code.body(p.attempt, p.responses);
    if action.Call? { CallTakesPosition(code, p, action.prim, now); }
  }

  /** Only a turn of its body moves a pass into a fn or its position on; a report of a step
      follows its fn. */
  lemma PassFnCalls(code: Code, w: World, e: Event, k: nat)
    requires Enabled(w, e) && k in w.passes && WellPhased(w.passes[k])
    requires !(e.Turn? && e.token == k)
    requires e.Claimed? ==> k <= w.run.token
    ensures k in Next(code, w, e).passes
    ensures var p, q := w.passes[k], Next(code, w, e).passes[k];
      && p.pos == q.pos
      && (q.phase.InFn? || ReportsFn(q) ==> p.phase.InFn? || ReportsFn(p))
  {
    if !Addresses(e, k) { OthersUntouched(code, w, e, k); }
  }

  lemma CommitStepRow(r: Run, worker: nat, token: nat, req: Request, c: Circumstance, n: nat)
    requires !CompletedAt(r.ledger, n) && CompletedAt(Commit(r, worker, token, req, c).run.ledger, n)
    requires Commit(r, worker, token, req, c).run.ledger[n].kind.Step?
    ensures StepResult(req) && n == req.pos && Commit(r, worker, token, req, c).run.ledger[n].claim == token
  {
  }

  /** A step row enters the ledger only through the report of its fn, in time or late. */
  lemma NewStepRow(code: Code, w: World, e: Event, n: nat)
    requires Ordered(w) && Enabled(w, e)
    requires w.run.wait.Some? ==> !w.run.wait.value.kind.Step?
    requires !CompletedAt(w.run.ledger, n) && CompletedAt(Next(code, w, e).run.ledger, n)
    requires Next(code, w, e).run.ledger[n].kind.Step?
    ensures var k := Next(code, w, e).run.ledger[n].claim;
      || (e == Commits(k, e.found) && ReportsFn(w.passes[k]) && n == w.passes[k].pos - 1)
      || (e.Arrives? && k == e.write.token && StepResult(e.write.req) && n == e.write.req.pos)
  {
    match e
    case Other(t) => UnfencedWritesAtWait(w.run, t); NoStepFromWait(w.run, t, n);
    case Commits(k, found) =>
      var p := w.passes[k];
      assert LinkedPass(w.run, k, p) && WellPhased(p);
      CommitStepRow(w.run, p.worker, p.token, p.phase.req, found, n);
    case Arrives(l, found) => CommitStepRow(w.run, l.worker, l.token, l.req, found, n);
    case _ =>
  }

  lemma NoStepFromWait(r: Run, t: Fencing.Transaction, n: nat)
    requires Unfenced(t) && (r.wait.Some? ==> !r.wait.value.kind.Step?)
    requires !CompletedAt(r.ledger, n) && CompletedAt(Fencing.Apply(r, t).ledger, n)
    ensures !Fencing.Apply(r, t).ledger[n].kind.Step?
  {
  }

  /** Waits are waits: a pending wait never stands for a step. */
  ghost predicate WaitsAreWaits(w: World) {
    w.run.wait.Some? ==> !w.run.wait.value.kind.Step?
  }

  lemma NextKeepsWaits(code: Code, w: World, e: Event)
    requires WaitsAreWaits(w) && Enabled(w, e)
    ensures WaitsAreWaits(Next(code, w, e))
  {
  }

  lemma CallsStayAccounted(code: Code, w: World, e: Event, c: FnCall)
    requires EffectsAccounted(w) && Enabled(w, e)
    requires c in w.calls
    ensures CallAccounted(Next(code, w, e), c)
  {
    assert CallAccounted(w, c) && LinkedPass(w.run, c.token, w.passes[c.token]);
    var p := w.passes[c.token];
    if e.Turn? && e.token == c.token {
      TurnTakesPosition(code, p, e.now);
    } else {
      PassFnCalls(code, w, e, c.token);
      PassesPersist(code, w, e, c.token);
    }
  }

  /** A turn that starts an fn records one new call, at the pass's next position. */
  lemma NewCall(code: Code, w: World, k: nat, now: Value)
    requires EffectsAccounted(w) && Enabled(w, Turn(k, now))
    ensures var w' := Next(code, w, Turn(k, now));
      && (w'.calls == w.calls || (w'.calls == w.calls + [FnCall(k, w.passes[k].pos)] && w'.passes[k].pos == w.passes[k].pos + 1))
      && (w'.passes[k].phase.InFn? ==> w'.calls == w.calls + [FnCall(k, w.passes[k].pos)])
      && !ReportsFn(w'.passes[k])
      && FnCall(k, w.passes[k].pos) !in w.calls
      && (w'.calls != w.calls ==> CallAccounted(w', FnCall(k, w.passes[k].pos)))
  {
    TurnTakesPosition(code, w.passes[k], now);
    assert FnCall(k, w.passes[k].pos) in w.calls ==> CallAccounted(w, FnCall(k, w.passes[k].pos));
  }

  lemma RunningFnsCalled(code: Code, w: World, e: Event, k: nat)
    requires EffectsAccounted(w) && Enabled(w, e)
    ensures FnCalled(Next(code, w, e), k)
  {
    assert FnCalled(w, k);
    if k in Next(code, w, e).passes {
      PassesPersist(code, w, e, k);
      if k in w.passes && k <= w.run.token {
        if e.Turn? && e.token == k {
          NewCall(code, w, k, e.now);
        } else {
          PassFnCalls(code, w, e, k);
          CallsGrow(code, w, e);
        }
      }
    }
  }

  lemma CallsGrow(code: Code, w: World, e: Event)
    requires Enabled(w, e)
    ensures w.calls <= Next(code, w, e).calls
  {
  }

  lemma NewRowCalled(code: Code, w: World, e: Event, n: nat)
    requires EffectsAccounted(w) && WaitsAreWaits(w) && Enabled(w, e)
    requires !CompletedAt(w.run.ledger, n) && CompletedAt(Next(code, w, e).run.ledger, n)
    requires Next(code, w, e).run.ledger[n].kind.Step?
    ensures FnCall(Next(code, w, e).run.ledger[n].claim, n) in w.calls
  {
    NewStepRow(code, w, e, n);
    if e.Commits? {
      assert FnCalled(w, e.token);
    } else {
      assert LateCalled(w, e.write);
    }
  }

  lemma StepRowsCalled(code: Code, w: World, e: Event, n: nat)
    requires EffectsAccounted(w) && WaitsAreWaits(w) && Enabled(w, e)
    requires var r := Next(code, w, e).run; CompletedAt(r.ledger, n) && r.ledger[n].kind.Step?
    ensures FnCall(Next(code, w, e).run.ledger[n].claim, n) in Next(code, w, e).calls
  {
    CallsGrow(code, w, e);
    if CompletedAt(w.run.ledger, n) {
      NextAdvances(code, w, e);
      assert Next(code, w, e).run.ledger[n] == w.run.ledger[n];
    } else {
      NewRowCalled(code, w, e, n);
    }
  }

  lemma CallsDistinct(code: Code, w: World, e: Event)
    requires EffectsAccounted(w) && Enabled(w, e)
    ensures var calls := Next(code, w, e).calls; forall i, j :: 0 <= i < j < |calls| ==> calls[i] != calls[j]
  {
    if e.Turn? { NewCall(code, w, e.token, e.now); }
  }

  lemma AllCallsAccounted(code: Code, w: World, e: Event, c: FnCall)
    requires EffectsAccounted(w) && Enabled(w, e) && c in Next(code, w, e).calls
    ensures CallAccounted(Next(code, w, e), c)
  {
    if c in w.calls {
      CallsStayAccounted(code, w, e, c);
    } else {
      NewCall(code, w, e.token, e.now);
    }
  }

  lemma NextKeepsEffects(code: Code, w: World, e: Event)
    requires EffectsAccounted(w) && WaitsAreWaits(w) && Enabled(w, e)
    ensures EffectsAccounted(Next(code, w, e))
  {
    var w' := Next(code, w, e);
    NextKeepsOrdered(code, w, e);
    CallsDistinct(code, w, e);
    forall c | c in w'.calls ensures CallAccounted(w', c) { AllCallsAccounted(code, w, e, c); }
    forall k: nat ensures FnCalled(w', k) { RunningFnsCalled(code, w, e, k); }
    forall n: nat | CompletedAt(w'.run.ledger, n) && w'.run.ledger[n].kind.Step?
      ensures FnCall(w'.run.ledger[n].claim, n) in w'.calls
    {
      StepRowsCalled(code, w, e, n);
    }
    forall l | l in w'.late ensures LateCalled(w', l) { LateStaysCalled(code, w, e, l); }
  }

  lemma LateStaysCalled(code: Code, w: World, e: Event, l: LateWrite)
    requires EffectsAccounted(w) && Enabled(w, e) && l in Next(code, w, e).late
    ensures LateCalled(Next(code, w, e), l)
  {
    if l in w.late {
      assert LateCalled(w, l);
    } else {
      assert FnCalled(w, e.token) && LinkedPass(w.run, e.token, w.passes[e.token]);
    }
  }

  lemma {:induction false} HistoryKeepsEffects(code: Code, w: World, es: seq<Event>)
    requires EffectsAccounted(w) && WaitsAreWaits(w)
    ensures EffectsAccounted(History(code, w, es)) && WaitsAreWaits(History(code, w, es))
    decreases es
  {
    if es != [] {
      if Enabled(w, es[0]) {
        NextKeepsEffects(code, w, es[0]);
        NextKeepsWaits(code, w, es[0]);
      }
      HistoryKeepsEffects(code, if Enabled(w, es[0]) then Next(code, w, es[0]) else w, es[1..]);
    }
  }

  /** Over every history: a pass invokes a step's fn at most once; a recorded step row comes
      from exactly such an invocation by the claim that committed it; and any other invocation
      at that position belongs to an older claim, which was lost before the commit. */
  lemma EffectsChargedToLostPasses(code: Code, run: Run, es: seq<Event>)
    requires Fresh(run)
    ensures var w := History(code, Initial(run), es);
      && (forall i, j :: 0 <= i < j < |w.calls| ==> w.calls[i] != w.calls[j])
      && (forall n: nat :: CompletedAt(w.run.ledger, n) && w.run.ledger[n].kind.Step?
            ==> FnCall(w.run.ledger[n].claim, n) in w.calls)
      && (forall c :: c in w.calls && CompletedAt(w.run.ledger, c.pos)
            ==> c.token <= w.run.ledger[c.pos].claim)
  {
    var w := History(code, Initial(run), es);
    HistoryKeepsEffects(code, Initial(run), es);
    forall c | c in w.calls && CompletedAt(w.run.ledger, c.pos)
      ensures c.token <= w.run.ledger[c.pos].claim
    {
      assert CallAccounted(w, c) && LinkedPass(w.run, c.token, w.passes[c.token]);
    }
  }

  /** Exactly when an fn runs although its row is already committed: when a newer claim has
      committed it. A pass that still holds its claim never does. */
  lemma LateInvocation(code: Code, run: Run, es: seq<Event>, k: nat, now: Value)
    requires Fresh(run)
    requires var w := History(code, Initial(run), es);
      Enabled(w, Turn(k, now)) && Next(code, w, Turn(k, now)).passes[k].phase.InFn?
    ensures var w := History(code, Initial(run), es); var n := w.passes[k].pos;
      && (CompletedAt(w.run.ledger, n) <==> exists j :: k < j <= w.run.token && CommittedBy(w.run.ledger, n, j))
      && (Holds(w, w.passes[k]) ==> !CompletedAt(w.run.ledger, n))
  {
    var w := History(code, Initial(run), es);
    HistoryKeepsEffects(code, Initial(run), es);
    var p := w.passes[k];
    TurnTakesPosition(code, p, now);
    assert LinkedPass(w.run, k, p);
    if CompletedAt(w.run.ledger, p.pos) {
      assert CommittedBy(w.run.ledger, p.pos, w.run.ledger[p.pos].claim);
    }
  }

  predicate CommittedBy(ledger: Ledger, n: nat, token: nat) {
    CompletedAt(ledger, n) && ledger[n].claim == token
  }

  /** Such a late invocation does happen: a reaped worker that has not noticed yet. */
  lemma ZombieInvokesAfterCommit(run: Run)
    requires Fresh(run) && run.maxRecoveries > 0
    ensures exists code: Code, es: seq<Event> ::
      var w := History(code, Initial(run), es);
      && Enabled(w, Turn(1, NULL)) && CompletedAt(w.run.ledger, 0)
      && Next(code, w, Turn(1, NULL)).passes[1].phase == InFn(0, TheStep(), DigestOf(TheStep(), None))
  {
    var code := OneStep();
    var first := [Claimed(1, Fit), Other(Fencing.ReapLease), Claimed(2, Fit)];
    var second := [Turn(2, NULL), FnSettles(2, FnReturned(7)), Commits(2, Circumstance(true, false, NULL))];
    var claimed := PlayTwoClaims(run);
    var w := PlayCommit(claimed);
    HistoryConcat(code, Initial(run), first, second);
    assert w == History(code, Initial(run), first + second);
  }

  /** Two claims with a reap between them: two passes, both at their first position. */
  lemma PlayTwoClaims(run: Run) returns (w: World)
    requires Fresh(run) && run.maxRecoveries > 0
    ensures w == History(OneStep(), Initial(run), [Claimed(1, Fit), Other(Fencing.ReapLease), Claimed(2, Fit)])
    ensures w.run.status.Running? && w.run.queue == LockedBy(2) && w.run.token == 2 && w.run.ledger == map[]
    ensures 1 in w.passes && w.passes[1] == Pass(1, 1, 1, map[], 0, [], BodyTurn, None, None, false, false, None, [])
    ensures 2 in w.passes && w.passes[2] == Pass(2, 2, 1, map[], 0, [], BodyTurn, None, None, false, false, None, [])
  {
    var w1 := Next(OneStep(), Initial(run), Claimed(1, Fit));
    HistoryCons(OneStep(), Initial(run), Claimed(1, Fit), [Other(Fencing.ReapLease), Claimed(2, Fit)]);
    var w2 := Next(OneStep(), w1, Other(Fencing.ReapLease));
    HistoryCons(OneStep(), w1, Other(Fencing.ReapLease), [Claimed(2, Fit)]);
    w := Next(OneStep(), w2, Claimed(2, Fit));
    HistoryCons(OneStep(), w2, Claimed(2, Fit), []);
    assert [Claimed(1, Fit)] + [Other(Fencing.ReapLease), Claimed(2, Fit)] == [Claimed(1, Fit), Other(Fencing.ReapLease), Claimed(2, Fit)];
    assert [Other(Fencing.ReapLease)] + [Claimed(2, Fit)] == [Other(Fencing.ReapLease), Claimed(2, Fit)];
    assert [Claimed(2, Fit)] + [] == [Claimed(2, Fit)];
  }

  /** The second pass runs the step and its report commits; the first pass is where it was. */
  lemma PlayCommit(w: World) returns (w': World)
    requires w.run.status.Running? && w.run.queue == LockedBy(2) && w.run.token == 2 && w.run.ledger == map[]
    requires 1 in w.passes
    requires 2 in w.passes && w.passes[2] == Pass(2, 2, 1, map[], 0, [], BodyTurn, None, None, false, false, None, [])
    ensures w' == History(OneStep(), w, [Turn(2, NULL), FnSettles(2, FnReturned(7)), Commits(2, Circumstance(true, false, NULL))])
    ensures CompletedAt(w'.run.ledger, 0)
    ensures 1 in w'.passes && w'.passes[1] == w.passes[1]
  {
    var turn, settles, commits: Event := Turn(2, NULL), FnSettles(2, FnReturned(7)), Commits(2, Circumstance(true, false, NULL));
    var w1 := Next(OneStep(), w, turn);
    HistoryCons(OneStep(), w, turn, [settles, commits]);
    var w2 := Next(OneStep(), w1, settles);
    HistoryCons(OneStep(), w1, settles, [commits]);
    w' := Next(OneStep(), w2, commits);
    HistoryCons(OneStep(), w2, commits, []);
    assert [turn] + [settles, commits] == [turn, settles, commits];
    assert [settles] + [commits] == [settles, commits];
    assert [commits] + [] == [commits];
  }

  function TheStep(): Primitive { Primitive(Step, "s", Json(1), NoPolicy) }

  function OneStep(): Code {
    Code((attempt: nat, past: seq<Response>) => if |past| == 0 then Call(TheStep()) else Return(NULL), None, false, NoPolicy)
  }
}
