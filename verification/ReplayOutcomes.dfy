/** What each thing a task body does comes to: what the body is told, what is asked of the kernel in
    the literal terms of a request, and what the rows are once it is committed. */
module ReplayOutcomes {
  import opened Options
  import opened RunLedger
  import opened Replay
  import opened ReplayWorld
  import Fencing

  lemma Two(code: Code, w: World, e: Event, f: Event)
    requires Enabled(w, e) && Enabled(Next(code, w, e), f)
    ensures History(code, w, [e, f]) == Next(code, Next(code, w, e), f)
  {
    assert [e, f] == [e] + [f] && [f] == [f] + [];
    HistoryCons(code, w, e, [f]);
    HistoryCons(code, Next(code, w, e), f, []);
  }

  lemma Three(code: Code, w: World, e: Event, f: Event, g: Event)
    requires Enabled(w, e) && Enabled(Next(code, w, e), f) && Enabled(Next(code, Next(code, w, e), f), g)
    ensures History(code, w, [e, f, g]) == Next(code, Next(code, Next(code, w, e), f), g)
  {
    assert [e, f, g] == [e] + [f, g];
    HistoryCons(code, w, e, [f, g]);
    Two(code, Next(code, w, e), f, g);
  }

  /** The body of a pass that nothing has ended is about to call this primitive. */
  predicate AboutToCall(code: Code, w: World, k: nat, prim: Primitive) {
    && k in w.passes && w.passes[k].phase.BodyTurn? && w.passes[k].reply.None?
    && w.passes[k].endSignal.None? && !w.passes[k].abandoned
    && code.body(w.passes[k].attempt, w.passes[k].responses) == Call(prim)
  }

  /** The run is running, locked by the pass's worker, under the pass's token. */
  predicate Owns(w: World, p: Pass) {
    w.run.status == Running && w.run.queue == LockedBy(p.worker) && w.run.token == p.token
  }

  /** A pass has this write out, under the claim that holds the run. */
  predicate Asks(w: World, k: nat, req: Request, cont: Continuation) {
    && k in w.passes && w.passes[k].phase == Calling(req, cont) && w.passes[k].reply.None? && Owns(w, w.passes[k])
  }

  /** The pass gave its body this answer, and did nothing else. */
  predicate Told(p: Pass, w: World, k: nat, answer: Response) {
    k in w.passes && var q := w.passes[k];
    && q.responses == p.responses + [answer] && q.phase.BodyTurn? && q.reply.None?
    && q.attempt == p.attempt && q.snapshot == p.snapshot && q.canceled == p.canceled && q.abortReason == p.abortReason
  }

  predicate InPhase(w: World, k: nat, phase: Phase) {
    k in w.passes && w.passes[k].phase == phase && w.passes[k].reply.None?
  }

  /** Which signal has been thrown into the body, if any, and whether the attempt was given up. */
  predicate Signalled(w: World, k: nat, signal: Option<EndSignal>, abandoned: bool) {
    k in w.passes && w.passes[k].endSignal == signal && w.passes[k].abandoned == abandoned
  }

  predicate SameIssued(p: Pass, w: World, k: nat) {
    k in w.passes && w.passes[k].issued == p.issued
  }

  /* ---- replay ---- */

  /** A primitive whose row the snapshot holds is answered from it and asks the kernel nothing: with
      the recorded value, or for a wait with none, if the row is its own, else with an AbortError. */
  lemma RecordedCall(code: Code, w: World, k: nat, now: Value, prim: Primitive, v: Value)
    requires AboutToCall(code, w, k, prim) && prim.input == Json(v)
    requires var p := w.passes[k]; p.pos in p.snapshot && p.snapshot[p.pos].completed
    ensures var p := w.passes[k]; var row := p.snapshot[p.pos];
      var labelled := prim.kind == Step || prim.kind == BatchTrigger;
      var renamed := (labelled || prim.kind == TriggerAndWait) && row.name.Some? && row.name != Some(prim.name);
      var tag := if renamed then row.name else if labelled then Some(prim.name) else None;
      var ours := row.kind == prim.kind
        && (row.fingerprint.Some? ==> row.fingerprint == Some(Fingerprint(prim.kind, tag, v, code.version)) && !(renamed && code.strict));
      var w' := Next(code, w, Turn(k, now));
      && w'.run == w.run && w'.calls == w.calls
      && Told(p, w', k, if ours then Val(if prim.kind == Wait then NULL else row.output) else Threw(Abort))
      && w'.passes[k].pos == p.pos + 1 && Signalled(w', k, None, false) && SameIssued(p, w', k)
  {
  }

  /** A primitive whose inputs have no JSON spelling takes a position and is told an AbortError. */
  lemma UnserializableCall(code: Code, w: World, k: nat, now: Value, prim: Primitive)
    requires AboutToCall(code, w, k, prim) && prim.input == NotSerializable
    ensures var w' := Next(code, w, Turn(k, now));
      && w'.run == w.run && w'.calls == w.calls && Told(w.passes[k], w', k, Threw(Abort))
      && w'.passes[k].pos == w.passes[k].pos + 1 && Signalled(w', k, None, false) && SameIssued(w.passes[k], w', k)
  {
  }

  /** A primitive that is not recorded runs its fn or asks the kernel, under the next position and
      the fingerprint of its kind, label, input and code version; a canceled run's ends instead. */
  lemma NewCall(code: Code, w: World, k: nat, now: Value, prim: Primitive, v: Value)
    requires AboutToCall(code, w, k, prim) && prim.input == Json(v)
    requires var p := w.passes[k]; !(p.pos in p.snapshot && p.snapshot[p.pos].completed)
    ensures var p := w.passes[k]; var w' := Next(code, w, Turn(k, now)); var q := w'.passes[k];
      && w'.run == w.run && q.pos == p.pos + 1
      && (p.canceled ==> Told(p, w', k, Threw(ExecutionDone)) && Signalled(w', k, Some(SignalDone), true) && q.issued == p.issued && w'.calls == w.calls)
      && (!p.canceled ==>
            && q.responses == p.responses && q.endSignal.None? && !q.abandoned && q.reply.None?
            && w'.calls == (if prim.kind == Step then w.calls + [FnCall(k, p.pos)] else w.calls)
            && q.phase == match prim.kind
                 case Step => InFn(p.pos, prim, Fingerprint(Step, Some(prim.name), v, code.version))
                 case Wait => Calling(SuspendRun(p.pos, Fingerprint(Wait, None, v, code.version)), WaitSuspended)
                 case TriggerAndWait => Calling(WaitForChildRun(p.pos, Fingerprint(TriggerAndWait, None, v, code.version)), ChildAwaited)
                 case BatchTrigger =>
                   Calling(BatchTriggerChild(p.pos, Some(prim.name), Fingerprint(BatchTrigger, Some(prim.name), v, code.version)), BatchTriggered)
                 case Now => Calling(ReportStep(p.pos, Now, None, Fingerprint(Now, None, v, code.version), true, now), StepReported(now))
                 case Random => Calling(ReportStep(p.pos, Random, None, Fingerprint(Random, None, v, code.version), true, now), StepReported(now))
                 case Uuid => Calling(ReportStep(p.pos, Uuid, None, Fingerprint(Uuid, None, v, code.version), true, now), StepReported(now)))
  {
  }

  /** After a signal was thrown into the body a primitive takes no position and is told an AbortError;
      after an abandonment alone it is told ExecutionDone. */
  lemma CallAfterTheEnd(code: Code, w: World, k: nat, now: Value, prim: Primitive)
    requires k in w.passes && w.passes[k].phase.BodyTurn? && (w.passes[k].endSignal.Some? || w.passes[k].abandoned)
    requires code.body(w.passes[k].attempt, w.passes[k].responses) == Call(prim)
    ensures var w' := Next(code, w, Turn(k, now));
      && w'.run == w.run && w'.calls == w.calls && w'.passes[k].pos == w.passes[k].pos
      && Told(w.passes[k], w', k, Threw(if w.passes[k].endSignal.Some? then Abort else ExecutionDone))
  {
  }

  /* ---- steps ---- */

  /** What a step returned: if it can be stored it is the row of its position and what the body is
      told; if not, the row is a failed one and the body is told an AbortError. */
  lemma StepReturns(code: Code, w: World, k: nat, v: Value, found: Circumstance)
    requires k in w.passes && w.passes[k].phase.InFn? && w.passes[k].phase.prim.kind == Step && Owns(w, w.passes[k])
    requires var n := w.passes[k].phase.pos; !(n in w.run.ledger && w.run.ledger[n].completed)
    ensures var p := w.passes[k]; var InFn(n, prim, digest) := p.phase;
      var w' := History(code, w, [FnSettles(k, FnReturned(v)), Commits(k, found), Delivered(k)]);
      var row := Row(Step, Some(prim.name), Some(digest), found.storable, if found.storable then v else NULL, p.token);
      && w'.run == w.run.(ledger := w.run.ledger[n := row])
      && Told(p, w', k, if found.storable then Val(v) else Threw(Abort)) && Signalled(w', k, p.endSignal, p.abandoned)
  {
    Three(code, w, FnSettles(k, FnReturned(v)), Commits(k, found), Delivered(k));
  }

  /** A row that is already completed stays; the report is answered as before if the fingerprints
      agree or one side has none, and is told an AbortError if they differ. */
  lemma ReportAgain(code: Code, w: World, k: nat, req: Request, v: Value, found: Circumstance)
    requires Asks(w, k, req, StepReported(v)) && req.ReportStep? && req.completed
    requires req.pos in w.run.ledger && w.run.ledger[req.pos].completed
    ensures var p := w.passes[k]; var w' := History(code, w, [Commits(k, found), Delivered(k)]);
      var stored := w.run.ledger[req.pos].fingerprint;
      w'.run == w.run && Told(p, w', k, if stored.None? || stored == Some(req.fingerprint) then Val(v) else Threw(Abort))
  {
    Two(code, w, Commits(k, found), Delivered(k));
  }

  /** The policy that governs a failure, in the order the attempt looks for one. */
  function Governing(abort: bool, step: Retry, task: Retry): Retry {
    if abort then NoPolicy else if step.Policy? then step else task
  }

  /** How many attempts a policy allows: its own number, or the run's. */
  function Budget(retry: Retry, run: Run): nat {
    if retry.Policy? && retry.maxAttempts.Some? then retry.maxAttempts.value else run.maxAttempts
  }

  /** The run after a failure under that policy: back in the queue for its next attempt, or failed. */
  function AfterFailure(run: Run, abort: bool, retry: Retry): Run {
    if !abort && run.attempt < Budget(retry, run) then run.(status := Queued, queue := Unlocked, attempt := run.attempt + 1)
    else run.(status := Failed, queue := NoRow, wait := None)
  }

  /** A step whose fn throws, in a pass that nobody has told to stop: its failed row is written, and
      the failure is reported as an abort exactly if it was one, under the step's policy if it has
      one, else the task's. */
  lemma StepThrows(code: Code, w: World, k: nat, abort: bool, found: Circumstance)
    requires k in w.passes && w.passes[k].phase.InFn? && w.passes[k].phase.prim.kind == Step
    requires Owns(w, w.passes[k]) && w.passes[k].abortReason.None?
    requires var n := w.passes[k].phase.pos; !(n in w.run.ledger && w.run.ledger[n].completed)
    ensures var p := w.passes[k]; var InFn(n, prim, digest) := p.phase;
      var w' := History(code, w, [FnSettles(k, FnThrew(abort)), Commits(k, found), Delivered(k)]);
      && w'.run == w.run.(ledger := w.run.ledger[n := Row(Step, Some(prim.name), Some(digest), false, NULL, p.token)])
      && Asks(w', k, FailRun(abort, Governing(abort, prim.retry, code.retry)), RunFailed(InStep))
      && w'.passes[k].responses == p.responses && Signalled(w', k, p.endSignal, p.abandoned)
  {
    Three(code, w, FnSettles(k, FnThrew(abort)), Commits(k, found), Delivered(k));
  }

  /** A failure that is reported in time: the run is retried or failed by that policy. In a step the body
      is then told ExecutionDone; elsewhere the attempt is over, as failed. */
  lemma FailureLands(code: Code, w: World, k: nat, abort: bool, retry: Retry, after: FailedAt, found: Circumstance)
    requires Asks(w, k, FailRun(abort, retry), RunFailed(after))
    ensures var p := w.passes[k]; var w' := History(code, w, [Commits(k, found), Delivered(k)]);
      && w'.run == AfterFailure(w.run, abort, retry)
      && (after == InStep ==> Told(p, w', k, Threw(ExecutionDone)) && Signalled(w', k, Some(SignalDone), p.abandoned))
      && (after != InStep && !p.abandoned ==> InPhase(w', k, Finished(Fails)))
  {
    Two(code, w, Commits(k, found), Delivered(k));
  }

  /** Both together: whether a step that threw is tried again. */
  lemma StepRetried(code: Code, w: World, k: nat, abort: bool, found: Circumstance, later: Circumstance)
    requires k in w.passes && w.passes[k].phase.InFn? && w.passes[k].phase.prim.kind == Step
    requires Owns(w, w.passes[k]) && w.passes[k].abortReason.None?
    requires var n := w.passes[k].phase.pos; !(n in w.run.ledger && w.run.ledger[n].completed)
    ensures var policy := Governing(abort, w.passes[k].phase.prim.retry, code.retry);
      var w' := History(code, w, [FnSettles(k, FnThrew(abort)), Commits(k, found), Delivered(k)]);
      var r := History(code, w', [Commits(k, later), Delivered(k)]).run;
      && (r.status == Queued <==> !abort && w.run.attempt < Budget(policy, w.run))
      && (r.status == Queued ==> r.queue == Unlocked && r.attempt == w.run.attempt + 1)
      && (r.status != Queued ==> r.status == Failed && r.queue == NoRow && r.attempt == w.run.attempt)
  {
    StepThrows(code, w, k, abort, found);
    var w' := History(code, w, [FnSettles(k, FnThrew(abort)), Commits(k, found), Delivered(k)]);
    FailureLands(code, w', k, abort, Governing(abort, w.passes[k].phase.prim.retry, code.retry), InStep, later);
  }

  /** The report of the failed row gets lost: the failure is reported all the same. */
  lemma StepThrowsUnrecorded(code: Code, w: World, k: nat, abort: bool)
    requires k in w.passes && w.passes[k].phase.InFn? && w.passes[k].abortReason.None?
    ensures var p := w.passes[k];
      var w3 := History(code, w, [FnSettles(k, FnThrew(abort)), RequestLost(k), Delivered(k)]);
      && w3.run == w.run
      && InPhase(w3, k, Calling(FailRun(abort, Governing(abort, p.phase.prim.retry, code.retry)), RunFailed(InStep)))
  {
    Three(code, w, FnSettles(k, FnThrew(abort)), RequestLost(k), Delivered(k));
  }

  /** A throw out of an fn that was told to stop is the abort landing: nothing is reported. */
  lemma StepThrowsOnAbort(code: Code, w: World, k: nat, abort: bool)
    requires k in w.passes && w.passes[k].phase.InFn? && w.passes[k].abortReason.Some?
    ensures var w' := Next(code, w, FnSettles(k, FnThrew(abort)));
      && w'.run == w.run && Told(w.passes[k], w', k, Threw(ExecutionDone))
      && Signalled(w', k, Some(SignalDone), true) && SameIssued(w.passes[k], w', k)
  {
  }

  /* ---- deterministic values, waits, children ---- */

  /** A deterministic value is recorded and answered with. */
  lemma ValueRecorded(code: Code, w: World, k: nat, n: nat, kind: Kind, digest: Fingerprint, v: Value, found: Circumstance)
    requires Asks(w, k, ReportStep(n, kind, None, digest, true, v), StepReported(v))
    requires !(n in w.run.ledger && w.run.ledger[n].completed) && found.storable
    ensures var p := w.passes[k]; var w' := History(code, w, [Commits(k, found), Delivered(k)]);
      && w'.run == w.run.(ledger := w.run.ledger[n := Row(kind, None, Some(digest), true, v, p.token)])
      && Told(p, w', k, Val(v))
  {
    Two(code, w, Commits(k, found), Delivered(k));
  }

  /** A wait that is due is recorded and over; any other suspends the run, and its resumption records
      the wait and requeues the run in the same attempt. */
  lemma WaitOutcome(code: Code, w: World, k: nat, n: nat, digest: Fingerprint, found: Circumstance, result: Value)
    requires Asks(w, k, SuspendRun(n, digest), WaitSuspended) && !(n in w.run.ledger && w.run.ledger[n].completed)
    ensures var p := w.passes[k]; var w' := History(code, w, [Commits(k, found), Delivered(k)]);
      var rows := w.run.ledger[n := Row(Wait, None, Some(digest), true, NULL, p.token)];
      if found.due then w'.run == w.run.(ledger := rows) && Told(p, w', k, Val(NULL)) && Signalled(w', k, p.endSignal, p.abandoned)
      else
        && w'.run == w.run.(status := Waiting, queue := NoRow, wait := Some(PendingWait(n, Wait, digest, p.token)))
        && Told(p, w', k, Threw(SuspendSignal)) && Signalled(w', k, Some(SignalSuspend), p.abandoned)
        && Next(code, w', Other(Fencing.ResumeWait(result))).run == w.run.(status := Queued, queue := Unlocked, ledger := rows, wait := None)
  {
    Two(code, w, Commits(k, found), Delivered(k));
  }

  /** A resumption records what the run waited for and requeues it in the same attempt: a wait with no
      value, a child with its result. When the child is deleted instead, the run fails. */
  lemma Resumes(code: Code, w: World, wait: PendingWait, result: Value)
    requires w.run.status == Waiting && w.run.wait == Some(wait) && !(wait.pos in w.run.ledger && w.run.ledger[wait.pos].completed)
    ensures Next(code, w, Other(Fencing.ResumeWait(result))).run
      == w.run.(status := Queued, queue := Unlocked, wait := None,
                ledger := w.run.ledger[wait.pos := Row(wait.kind, None, Some(wait.fingerprint), true,
                                                       if wait.kind == Wait then NULL else result, wait.claim)])
    ensures Next(code, w, Other(Fencing.ChildDeleted)).run
      == if wait.kind == TriggerAndWait then w.run.(status := Failed, queue := NoRow, wait := None) else w.run
  {
  }

  /** A child that can be created suspends the run; one that cannot be created is told as an AbortError. */
  lemma ChildOutcome(code: Code, w: World, k: nat, n: nat, digest: Fingerprint, found: Circumstance)
    requires Asks(w, k, WaitForChildRun(n, digest), ChildAwaited) && !(n in w.run.ledger && w.run.ledger[n].completed) && w.run.wait.None?
    ensures var p := w.passes[k]; var w' := History(code, w, [Commits(k, found), Delivered(k)]);
      if !found.storable then w'.run == w.run && Told(p, w', k, Threw(Abort)) && Signalled(w', k, p.endSignal, p.abandoned)
      else
        && w'.run == w.run.(status := Waiting, queue := NoRow, wait := Some(PendingWait(n, TriggerAndWait, digest, p.token)))
        && Told(p, w', k, Threw(SuspendSignal)) && Signalled(w', k, Some(SignalSuspend), p.abandoned)
  {
    Two(code, w, Commits(k, found), Delivered(k));
  }

  /** A child that is there already, by its row or its pending wait, is not created again. */
  lemma ChildThere(code: Code, w: World, k: nat, n: nat, digest: Fingerprint, found: Circumstance)
    requires Asks(w, k, WaitForChildRun(n, digest), ChildAwaited)
    requires (n in w.run.ledger && w.run.ledger[n].completed)
             || (w.run.wait.Some? && w.run.wait.value.pos == n && w.run.wait.value.kind == TriggerAndWait)
    ensures var p := w.passes[k]; var w' := History(code, w, [Commits(k, found), Delivered(k)]);
      w'.run == w.run && Told(p, w', k, Threw(SuspendSignal)) && Signalled(w', k, Some(SignalSuspend), p.abandoned)
  {
    Two(code, w, Commits(k, found), Delivered(k));
  }

  /** A batch is recorded with the ids of its children; one that cannot be stored leaves a failed row
      if its children exist, and the body is told an AbortError; one recorded before keeps its ids. */
  lemma BatchOutcome(code: Code, w: World, k: nat, n: nat, name: Option<string>, digest: Fingerprint, found: Circumstance)
    requires Asks(w, k, BatchTriggerChild(n, name, digest), BatchTriggered)
    ensures var p := w.passes[k]; var w' := History(code, w, [Commits(k, found), Delivered(k)]);
      if n in w.run.ledger && w.run.ledger[n].completed then
        w'.run == w.run && Told(p, w', k, Val(w.run.ledger[n].output))
      else if found.storable then
        && w'.run == w.run.(ledger := w.run.ledger[n := Row(BatchTrigger, name, Some(digest), true, found.childIds, p.token)])
        && Told(p, w', k, Val(found.childIds))
      else
        && w'.run == (if found.due then w.run.(ledger := w.run.ledger[n := Row(BatchTrigger, name, Some(digest), false, NULL, p.token)]) else w.run)
        && Told(p, w', k, Threw(Abort))
  {
    Two(code, w, Commits(k, found), Delivered(k));
  }

  /* ---- writes that come to nothing ---- */

  predicate ForPrimitive(req: Request) {
    req.SuspendRun? || req.WaitForChildRun? || req.BatchTriggerChild? || (req.ReportStep? && req.completed)
  }

  predicate Expects(req: Request, cont: Continuation) {
    match cont
    case StepReported(_) => req.ReportStep? && req.completed
    case StepFailureReported(_, _) => req.ReportStep? && !req.completed
    case WaitSuspended => req.SuspendRun?
    case ChildAwaited => req.WaitForChildRun?
    case BatchTriggered => req.BatchTriggerChild?
    case RunCompleted(_) => req.CompleteRun?
    case RunFailed(_) => req.FailRun?
  }

  /** A primitive's write whose request or reply is lost is told to the body as the error it is, and
      the attempt goes on; the completion's makes the executor throw. */
  lemma LostWrite(code: Code, w: World, k: nat)
    requires k in w.passes && w.passes[k].phase.Calling? && w.passes[k].reply.None? && Expects(w.passes[k].phase.req, w.passes[k].phase.cont)
    ensures var p := w.passes[k]; var w' := History(code, w, [RequestLost(k), Delivered(k)]);
      && w'.run == w.run
      && (ForPrimitive(p.phase.req) ==> Told(p, w', k, Threw(Lost)) && Signalled(w', k, p.endSignal, p.abandoned))
      && (p.phase.req.CompleteRun? ==> InPhase(w', k, Finished(Crashes)))
  {
    Two(code, w, RequestLost(k), Delivered(k));
  }

  /** A write under a claim that no longer holds changes nothing, and its answer says whether the run
      is not running or is another claim's. The pass gives up: its body is told ExecutionDone, or the
      executor reports 'abandoned', or, with a failure to report in a step, has just ended. */
  lemma RefusedWrite(code: Code, w: World, k: nat, found: Circumstance)
    requires k in w.passes && w.passes[k].phase.Calling? && w.passes[k].reply.None? && Expects(w.passes[k].phase.req, w.passes[k].phase.cont)
    requires !Owns(w, w.passes[k])
    ensures var p := w.passes[k]; var w1 := Next(code, w, Commits(k, found));
      var w' := History(code, w, [Commits(k, found), Delivered(k)]);
      && w1.run == w.run && w1.passes[k].reply == Some(if w.run.status == Running then StaleLease else RunNotRunning)
      && w'.run == w.run && w'.writes == w.writes && SameIssued(p, w', k)
      && (p.phase.cont == RunFailed(AtOutput) || p.phase.cont == RunFailed(BeforeBody) ==> InPhase(w', k, Finished(Fails)))
      && (p.phase.cont == RunFailed(BetweenSteps) || p.phase.req.CompleteRun? ==> InPhase(w', k, Finished(Abandons)))
      && (p.phase.cont == RunFailed(InStep) || !(p.phase.req.CompleteRun? || p.phase.req.FailRun?) ==>
            Told(p, w', k, Threw(ExecutionDone)) && Signalled(w', k, Some(SignalDone), true))
  {
    Two(code, w, Commits(k, found), Delivered(k));
  }

  /* ---- how an attempt ends ---- */

  /** The body returned and nothing had ended the attempt: its completion is asked for. */
  lemma BodyReturns(code: Code, w: World, k: nat, now: Value, v: Value)
    requires k in w.passes && w.passes[k].phase.BodyTurn? && w.passes[k].endSignal.None? && !w.passes[k].abandoned
    requires code.body(w.passes[k].attempt, w.passes[k].responses) == Return(v)
    ensures var w' := Next(code, w, Turn(k, now)); w'.run == w.run && InPhase(w', k, Calling(CompleteRun(v), RunCompleted(v)))
  {
  }

  /** A completion completes the run with that output; an output that cannot be stored fails it for good. */
  lemma CompletionOutcome(code: Code, w: World, k: nat, v: Value, found: Circumstance)
    requires Asks(w, k, CompleteRun(v), RunCompleted(v))
    ensures var w' := History(code, w, [Commits(k, found), Delivered(k)]);
      if found.storable then
        w'.run == w.run.(status := Completed, queue := NoRow, output := Some(v)) && InPhase(w', k, Finished(Completes(v)))
      else w'.run == w.run && Asks(w', k, FailRun(true, NoPolicy), RunFailed(AtOutput))
  {
    Two(code, w, Commits(k, found), Delivered(k));
  }

  /** An error escaped the body between steps, in a pass that nobody has told to stop: it is reported
      as an abort exactly if it is one, under the task's policy. */
  lemma BodyThrows(code: Code, w: World, k: nat, now: Value, err: Thrown)
    requires k in w.passes && w.passes[k].phase.BodyTurn? && !w.passes[k].abandoned && w.passes[k].abortReason.None?
    requires Owns(w, w.passes[k]) && code.body(w.passes[k].attempt, w.passes[k].responses) == Throw(err)
    requires err != SuspendSignal && err != ExecutionDone
    ensures var w' := Next(code, w, Turn(k, now));
      w'.run == w.run && Asks(w', k, FailRun(err == Abort, Governing(err == Abort, NoPolicy, code.retry)), RunFailed(BetweenSteps))
  {
  }

  /** Both together: whether a run whose body threw is tried again. */
  lemma ErrorRetried(code: Code, w: World, k: nat, now: Value, err: Thrown, found: Circumstance)
    requires k in w.passes && w.passes[k].phase.BodyTurn? && !w.passes[k].abandoned && w.passes[k].abortReason.None?
    requires Owns(w, w.passes[k]) && code.body(w.passes[k].attempt, w.passes[k].responses) == Throw(err)
    requires err != SuspendSignal && err != ExecutionDone
    ensures var policy := Governing(err == Abort, NoPolicy, code.retry);
      var r := History(code, Next(code, w, Turn(k, now)), [Commits(k, found), Delivered(k)]).run;
      && (r.status == Queued <==> err != Abort && w.run.attempt < Budget(policy, w.run))
      && (r.status == Queued ==> r.queue == Unlocked && r.attempt == w.run.attempt + 1)
      && (r.status != Queued ==> r.status == Failed && r.queue == NoRow && r.attempt == w.run.attempt)
  {
    BodyThrows(code, w, k, now, err);
    FailureLands(code, Next(code, w, Turn(k, now)), k, err == Abort, Governing(err == Abort, NoPolicy, code.retry), BetweenSteps, found);
  }

  /** In every other case the attempt is over and nothing is asked of the kernel. */
  lemma AttemptOver(code: Code, w: World, k: nat, now: Value)
    requires k in w.passes && w.passes[k].phase.BodyTurn?
    requires var p := w.passes[k]; var a := code.body(p.attempt, p.responses);
      || (a.Return? && (p.endSignal.Some? || p.abandoned))
      || (a.Throw? && (a.err == SuspendSignal || a.err == ExecutionDone || p.abandoned || p.abortReason.Some?))
    ensures var p := w.passes[k]; var a := code.body(p.attempt, p.responses);
      var w' := Next(code, w, Turn(k, now)); var q := w'.passes[k];
      && w'.run == w.run && w'.calls == w.calls && q.issued == p.issued
      && (a.Return? && p.endSignal == Some(SignalSuspend) ==> q.phase == Finished(Suspends))
      && (a.Return? && p.endSignal != Some(SignalSuspend) ==> q.phase == Finished(if p.abandoned then Abandons else Fails))
      && (a == Throw(SuspendSignal) ==> q.phase == Finished(Suspends))
      && (a == Throw(ExecutionDone) ==> q.phase == Finished(if p.abandoned then Abandons else Fails))
      && (a.Throw? && a.err != SuspendSignal && a.err != ExecutionDone ==> q.phase == Finished(Abandons))
  {
  }

  /** A run whose ledger was cut at the cap, or whose payload is invalid, is failed for good before
      its body is entered. */
  lemma UnfitClaim(code: Code, w: World, worker: nat, preflight: Preflight, found: Circumstance)
    requires Claimable(w.run) && preflight != Fit
    ensures var k := w.run.token + 1;
      var w' := History(code, w, [Claimed(worker, preflight), Commits(k, found), Delivered(k)]);
      && w'.run == w.run.(status := Failed, token := k, queue := NoRow, wait := None)
      && k in w'.passes && w'.passes[k].phase == Finished(Fails) && w'.passes[k].responses == [] && w'.calls == w.calls
  {
    Three(code, w, Claimed(worker, preflight), Commits(w.run.token + 1, found), Delivered(w.run.token + 1));
  }

  /** Any other claim hands the body to a pass at the first position, with the rows as they are. */
  lemma FitClaim(code: Code, w: World, worker: nat)
    requires Claimable(w.run)
    ensures var k := w.run.token + 1; var w' := Next(code, w, Claimed(worker, Fit));
      && w'.run == w.run.(status := Running, queue := LockedBy(worker), token := k)
      && k in w'.passes && w'.passes[k] == Pass(worker, k, w.run.attempt, w.run.ledger, 0, [], BodyTurn, None, None, false, false, None, [])
  {
  }

  /** The first mark decides why an attempt is to stop, and only a cancel marks it canceled. */
  lemma Marks(code: Code, w: World, k: nat, first: AbortReason, second: AbortReason)
    requires k in w.passes && w.passes[k].abortReason.None? && !w.passes[k].canceled
    ensures var w' := History(code, w, [Marked(k, first), Marked(k, second)]);
      && k in w'.passes && w'.run == w.run
      && w'.passes[k] == w.passes[k].(abortReason := Some(first), canceled := first == ReasonCanceled || second == ReasonCanceled)
  {
    Two(code, w, Marked(k, first), Marked(k, second));
  }
}
