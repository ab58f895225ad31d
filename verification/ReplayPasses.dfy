/** What holds of every pass of every reachable world: its phase agrees with what it issued,
    after a signal nothing but one failure report can follow, and its own rows lie behind it. */
module ReplayPasses {
  import opened RunLedger
  import opened Replay
  import opened ReplayWorld
  import Fencing

  /** A write that stands for a durable primitive, as opposed to the run's own end. */
  predicate PrimitiveWrite(req: Request) {
    !req.CompleteRun? && !req.FailRun?
  }

  function WritePos(req: Request): nat
    requires PrimitiveWrite(req)
  {
    req.pos
  }

  /** The await matches the write it waits for. */
  predicate Matches(req: Request, cont: Continuation) {
    match cont
    case StepReported(output) => req.ReportStep? && req.completed && req.output == output
    case StepFailureReported(_, _) => req.ReportStep? && !req.completed && req.kind.Step?
    case WaitSuspended => req.SuspendRun?
    case ChildAwaited => req.WaitForChildRun?
    case BatchTriggered => req.BatchTriggerChild?
    case RunCompleted(output) => req == CompleteRun(output)
    case RunFailed(_) => req.FailRun?
  }

  /** The pass is inside a primitive that has not been answered yet. */
  predicate InPrimitive(p: Pass) {
    p.phase.InFn? || (p.phase.Calling? && PrimitiveWrite(p.phase.req))
  }

  predicate WellPhased(p: Pass) {
    && (p.reply.Some? ==> p.phase.Calling?)
    && (p.phase.InFn? ==> p.phase.prim.kind.Step? && p.phase.pos + 1 == p.pos)
    && (p.phase.Calling? ==> Matches(p.phase.req, p.phase.cont))
    && (p.phase.Calling? && PrimitiveWrite(p.phase.req) ==> WritePos(p.phase.req) + 1 == p.pos)
    && (InPrimitive(p) ==> !CompletedAt(p.snapshot, p.pos - 1))
    && (p.abandoned ==> p.endSignal.Some? || p.phase.Finished?)
    && (p.endSignal.Some? ==> AfterSignal(p))
  }

  /** Once a control-flow signal was thrown: the body goes on, or the pass reports what escaped
      the body, or it is over. */
  predicate AfterSignal(p: Pass) {
    || p.phase.BodyTurn?
    || p.phase.Finished?
    || (p.phase.Calling? && p.phase.req.FailRun? && p.phase.cont == RunFailed(BetweenSteps))
  }

  /** Positions below it are behind the pass: answered, or committed and about to be. */
  function Frontier(p: Pass): nat
    requires WellPhased(p)
  {
    if InPrimitive(p) && p.reply.None? then p.pos - 1 else p.pos
  }

  predicate MovesOn(p: Pass, q: Pass)
    requires WellPhased(p)
  {
    WellPhased(q) && Frontier(p) <= Frontier(q) && (q.phase.Calling? || q.phase.InFn? ==> q.reply.None?)
  }

  lemma CallKeepsWellPhased(code: Code, p: Pass, prim: Primitive, now: Value)
    requires WellPhased(p) && p.phase.BodyTurn?
    ensures MovesOn(p, CallPrimitive(code, p, prim, now))
  {
  }

  lemma EndKeepsWellPhased(code: Code, p: Pass, value: Value, err: Thrown)
    requires WellPhased(p) && p.phase.BodyTurn?
    ensures MovesOn(p, BodyReturned(p, value)) && MovesOn(p, BodyThrew(code, p, err))
  {
  }

  lemma TurnKeepsWellPhased(code: Code, p: Pass, now: Value)
    requires WellPhased(p) && p.phase.BodyTurn?
    ensures MovesOn(p, TakeTurn(code, p, now))
  {
    var action := code.body(p.attempt, p.responses);
    if action.Call? { CallKeepsWellPhased(code, p, action.prim, now); }
    else { EndKeepsWellPhased(code, p, if action.Return? then action.value else NULL, if action.Throw? then action.err else Lost); }
  }

  lemma FnKeepsWellPhased(code: Code, p: Pass, outcome: FnOutcome)
    requires WellPhased(p) && p.phase.InFn?
    ensures var q := FnSettled(code, p, outcome); WellPhased(q) && Frontier(p) <= Frontier(q)
  {
  }

  lemma DeliverKeepsWellPhased(p: Pass)
    requires WellPhased(p) && p.phase.Calling? && p.reply.Some?
    ensures WellPhased(Deliver(p)) && Frontier(p) <= Frontier(Deliver(p))
  {
  }

  /** A pass stays well phased and never moves back. */
  lemma NextKeepsWellPhased(code: Code, w: World, e: Event, k: nat)
    requires Enabled(w, e) && k in w.passes && WellPhased(w.passes[k])
    requires e.Claimed? ==> k <= w.run.token
    ensures var w' := Next(code, w, e);
            k in w'.passes && WellPhased(w'.passes[k]) && Frontier(w.passes[k]) <= Frontier(w'.passes[k])
  {
    match e
    case Turn(j, now) => if j == k { TurnKeepsWellPhased(code, w.passes[k], now); }
    case FnSettles(j, outcome) => if j == k { FnKeepsWellPhased(code, w.passes[k], outcome); }
    case Delivered(j) => if j == k { DeliverKeepsWellPhased(w.passes[k]); }
    case _ =>
  }

  /** A row a pass wrote itself, or its suspension, lies behind it. */
  ghost predicate OwnRowsBehind(w: World) {
    && (forall k :: k in w.passes ==> WellPhased(w.passes[k]))
    && (forall n: nat :: CompletedAt(w.run.ledger, n) ==>
          var k := w.run.ledger[n].claim; k in w.passes && n < Frontier(w.passes[k]))
    && (w.run.wait.Some? ==>
          var k := w.run.wait.value.claim; k in w.passes && w.run.wait.value.pos < Frontier(w.passes[k]))
    && (forall l :: l in w.late ==> LateBehind(w, l))
  }

  /** A write that is still on its way lies behind its pass too. */
  ghost predicate LateBehind(w: World, l: LateWrite) {
    && l.token in w.passes && l.worker == w.passes[l.token].worker && WellPhased(w.passes[l.token])
    && (PrimitiveWrite(l.req) ==>
          WritePos(l.req) < Frontier(w.passes[l.token]) && !CompletedAt(w.passes[l.token].snapshot, WritePos(l.req)))
  }

  ghost predicate Ordered(w: World) {
    Linked(w) && OwnRowsBehind(w)
  }

  /** A row that a committed write completes is the row of that write's own position. */
  lemma CommitWritesAtPos(r: Run, worker: nat, token: nat, req: Request, c: Circumstance)
    ensures var r' := Commit(r, worker, token, req, c).run;
      && (forall n :: CompletedAt(r'.ledger, n) && !CompletedAt(r.ledger, n) ==> PrimitiveWrite(req) && n == WritePos(req))
      && (r'.wait.Some? && r'.wait != r.wait ==> PrimitiveWrite(req) && r'.wait.value.pos == WritePos(req) && r'.wait.value.claim == token)
  {
  }

  lemma UnfencedWritesAtWait(r: Run, t: Fencing.Transaction)
    requires Unfenced(t)
    ensures var r' := Fencing.Apply(r, t);
      && (forall n :: CompletedAt(r'.ledger, n) && !CompletedAt(r.ledger, n) ==>
            r.wait.Some? && n == r.wait.value.pos && r'.ledger[n].claim == r.wait.value.claim)
      && (r'.wait.Some? ==> r'.wait == r.wait)
  {
  }

  lemma NextKeepsOwnRowsBehind(code: Code, w: World, e: Event)
    requires Ordered(w) && Enabled(w, e)
    ensures OwnRowsBehind(Next(code, w, e))
  {
    var w' := Next(code, w, e);
    NextAdvances(code, w, e);
    forall k | k in w'.passes ensures WellPhased(w'.passes[k]) {
      PassesPersist(code, w, e, k);
      if k in w.passes && k <= w.run.token { NextKeepsWellPhased(code, w, e, k); }
    }
    forall n: nat | CompletedAt(w'.run.ledger, n)
      ensures var k := w'.run.ledger[n].claim; k in w'.passes && n < Frontier(w'.passes[k])
    {
      if CompletedAt(w.run.ledger, n) {
        NextKeepsWellPhased(code, w, e, w.run.ledger[n].claim);
      } else {
        NewRowBehind(code, w, e, n);
      }
    }
    if w'.run.wait.Some? { WaitBehind(code, w, e); }
    forall l | l in w'.late ensures LateBehind(w', l) { LateStaysBehind(code, w, e, l); }
  }

  lemma LateStaysBehind(code: Code, w: World, e: Event, l: LateWrite)
    requires Ordered(w) && Enabled(w, e) && l in Next(code, w, e).late
    ensures LateBehind(Next(code, w, e), l)
  {
    var k := l.token;
    assert k in w.passes && LinkedPass(w.run, k, w.passes[k]) by {
      if l in w.late { assert LateBehind(w, l); }
      if e.RequestLost? { assert LinkedPass(w.run, e.token, w.passes[e.token]); }
    }
    NextKeepsWellPhased(code, w, e, k);
    PassesPersist(code, w, e, k);
  }

  lemma NewRowBehind(code: Code, w: World, e: Event, n: nat)
    requires Ordered(w) && Enabled(w, e)
    requires !CompletedAt(w.run.ledger, n) && CompletedAt(Next(code, w, e).run.ledger, n)
    ensures var w' := Next(code, w, e); var k := w'.run.ledger[n].claim;
            k in w'.passes && WellPhased(w'.passes[k]) && n < Frontier(w'.passes[k])
  {
    match e
    case Other(t) => UnfencedWritesAtWait(w.run, t);
    case Commits(k, found) =>
      var p := w.passes[k];
      CommitWritesAtPos(w.run, p.worker, p.token, p.phase.req, found);
      Fencing.ApplyAdvances(w.run, Fencing.Write(p.worker, p.token, p.phase.req, found));
      ApplyStampsToken(w.run, Fencing.Write(p.worker, p.token, p.phase.req, found), n);
    case Arrives(l, found) =>
      assert LateBehind(w, l);
      CommitWritesAtPos(w.run, l.worker, l.token, l.req, found);
      ApplyStampsToken(w.run, Fencing.Write(l.worker, l.token, l.req, found), n);
    case _ =>
  }

  lemma CommitWaitBehind(code: Code, w: World, k: nat, found: Circumstance)
    requires Ordered(w) && Enabled(w, Commits(k, found))
    requires Next(code, w, Commits(k, found)).run.wait.Some?
    ensures var w' := Next(code, w, Commits(k, found)); var j := w'.run.wait.value.claim;
            j in w'.passes && WellPhased(w'.passes[j]) && w'.run.wait.value.pos < Frontier(w'.passes[j])
  {
    var p := w.passes[k];
    CommitWritesAtPos(w.run, p.worker, p.token, p.phase.req, found);
    if w.run.wait.Some? { NextKeepsWellPhased(code, w, Commits(k, found), w.run.wait.value.claim); }
  }

  lemma ArrivalWaitBehind(code: Code, w: World, l: LateWrite, found: Circumstance)
    requires Ordered(w) && Enabled(w, Arrives(l, found))
    requires Next(code, w, Arrives(l, found)).run.wait.Some?
    ensures var w' := Next(code, w, Arrives(l, found)); var j := w'.run.wait.value.claim;
            j in w'.passes && WellPhased(w'.passes[j]) && w'.run.wait.value.pos < Frontier(w'.passes[j])
  {
    assert LateBehind(w, l);
    CommitWritesAtPos(w.run, l.worker, l.token, l.req, found);
  }

  lemma WaitBehind(code: Code, w: World, e: Event)
    requires Ordered(w) && Enabled(w, e)
    requires Next(code, w, e).run.wait.Some?
    ensures var w' := Next(code, w, e); var k := w'.run.wait.value.claim;
            k in w'.passes && WellPhased(w'.passes[k]) && w'.run.wait.value.pos < Frontier(w'.passes[k])
  {
    match e
    case Other(t) => UnfencedWritesAtWait(w.run, t);
    case Commits(k, found) => CommitWaitBehind(code, w, k, found);
    case Arrives(l, found) => ArrivalWaitBehind(code, w, l, found);
    case Claimed(_, _) =>
    case _ => NextKeepsWellPhased(code, w, e, w.run.wait.value.claim);
  }

  lemma NextKeepsOrdered(code: Code, w: World, e: Event)
    requires Ordered(w) && Enabled(w, e)
    ensures Ordered(Next(code, w, e))
  {
    NextKeepsLinked(code, w, e);
    NextKeepsOwnRowsBehind(code, w, e);
  }

  lemma {:induction false} HistoryKeepsOrdered(code: Code, w: World, es: seq<Event>)
    requires Ordered(w)
    ensures Ordered(History(code, w, es))
    decreases es
  {
    if es != [] {
      if Enabled(w, es[0]) { NextKeepsOrdered(code, w, es[0]); }
      HistoryKeepsOrdered(code, if Enabled(w, es[0]) then Next(code, w, es[0]) else w, es[1..]);
    }
  }

  /** The pass that holds the claim knows the ledger: no row is completed at the position of
      a primitive it is still executing. */
  lemma HolderMisses(w: World, k: nat)
    requires Ordered(w) && k in w.passes
    requires Holds(w, w.passes[k]) && InPrimitive(w.passes[k]) && w.passes[k].reply.None?
    ensures !CompletedAt(w.run.ledger, w.passes[k].pos - 1)
  {
    assert LinkedPass(w.run, k, w.passes[k]);
  }
}
