/** The executor as an object: its fields change step by step, one method for each stretch of
    code between two awaits. Every method is proved to do what the pass of module Replay does. */
module ExecutorObject {
  import opened Options
  import opened RunLedger
  import opened Replay

  class Executor {
    const code: Code
    const worker: nat
    const token: nat
    const attempt: nat
    const snapshot: Ledger

    var pos: nat
    var endSignal: Option<EndSignal>
    var abandoned: bool
    var canceled: bool
    var abortReason: Option<AbortReason>

    // Where the code is suspended, and what the body has been told so far.
    var phase: Phase
    var reply: Option<Reply>
    var responses: seq<Response>
    ghost var issued: seq<Request>

    ghost function View(): Pass
      reads this
    {
      Pass(worker, token, attempt, snapshot, pos, responses, phase, reply, endSignal, abandoned, canceled, abortReason, issued)
    }

    constructor (code: Code, worker: nat, run: Run, preflight: Preflight)
      ensures View() == Start(worker, run, preflight) && this.code == code
    {
      this.code, this.worker, this.token, this.attempt, this.snapshot := code, worker, run.token, run.attempt, run.ledger;
      pos, endSignal, abandoned, canceled, abortReason := 0, None, false, false, None;
      phase, reply, responses, issued := BodyTurn, None, [], [];
      new;
      if !preflight.Fit? {
        ReportFailure(true, NoPolicy, BeforeBody);
      }
    }

    /* ---- marks from the worker loop ---- */

    method MarkCanceled()
      modifies this
      ensures View() == Mark(old(View()), ReasonCanceled)
    {
      canceled := true;
      AbortFor(ReasonCanceled);
    }

    method MarkLost()
      modifies this
      ensures View() == Mark(old(View()), ReasonLeaseLost)
    {
      AbortFor(ReasonLeaseLost);
    }

    method AbortFor(reason: AbortReason)
      modifies `abortReason
      ensures abortReason == if old(abortReason).Some? then old(abortReason) else Some(reason)
    {
      if abortReason.Some? { return; }
      abortReason := Some(reason);
    }

    /* ---- running the body ---- */

    /** The body moves: it calls a primitive, returns or throws. */
    method TakeTurn(now: Value)
      requires phase.BodyTurn?
      modifies this
      ensures View() == Replay.TakeTurn(code, old(View()), now)
    {
      match code.body(attempt, responses)
      case Call(prim) =>
        match prim.kind {
          case Step => DoStep(prim);
          case Wait => DoWait(prim);
          case TriggerAndWait => DoTriggerAndWait(prim);
          case BatchTrigger => DoBatchTrigger(prim);
          case _ => DoDeterministic(prim, now);
        }
      case Return(value) => Returned(value);
      case Throw(err) => HandleThrown(err);
    }

    method Returned(value: Value)
      modifies this
      ensures View() == BodyReturned(old(View()), value)
    {
      if endSignal.Some? {
        EndedWithoutUs();
        return;
      }
      if abandoned {
        Settle(Abandons);
        return;
      }
      Send(CompleteRun(value), RunCompleted(value));
    }

    /** run() returned although a signal was thrown into it: report what the signal stood for. */
    method EndedWithoutUs()
      modifies this
      ensures View() == Finish(old(View()), Replay.EndedWithoutUs(old(View())))
    {
      if endSignal == Some(SignalSuspend) {
        Settle(Suspends);
      } else {
        Settle(if abandoned then Abandons else Fails);
      }
    }

    method HandleThrown(err: Thrown)
      modifies this
      ensures View() == BodyThrew(code, old(View()), err)
    {
      if err.SuspendSignal? {
        Settle(Suspends);
        return;
      }
      if err.ExecutionDone? {
        Settle(if abandoned then Abandons else Fails);
        return;
      }
      if abandoned {
        Settle(Abandons);
        return;
      }
      if abortReason.Some? {
        Settle(Abandons);
        return;
      }
      var abort := err.Abort?;
      ReportFailure(abort, if abort then NoPolicy else code.retry, BetweenSteps);
    }

    /* ---- durable primitives ---- */

    /** The preamble of every primitive: a swallowed signal, an abandoned attempt, then the
        next position. None means the body was answered instead. */
    method BeginPrimitive() returns (taken: Option<nat>)
      modifies this
      ensures taken.Some? <==> old(endSignal).None? && !old(abandoned)
      ensures taken.Some? ==> taken.value == old(pos) && View() == old(View()).(pos := old(pos) + 1)
      ensures taken.None? ==> View() == if old(endSignal).Some? then Respond(old(View()), Threw(Abort)) else EndExecution(old(View()))
    {
      if endSignal.Some? {
        Answer(Threw(Abort));
        return None;
      }
      if abandoned {
        ThrowDone();
        return None;
      }
      taken := Some(pos);
      pos := pos + 1;
    }

    /** The replay check, then the cancel check. True means the primitive has to be executed. */
    method MustExecute(at: nat, prim: Primitive) returns (execute: bool)
      modifies this
      ensures !execute || prim.input.Json?
      ensures execute ==> View() == old(View()) && !canceled && CachedPrimitive(snapshot, at, prim, code).Miss?
      ensures !execute ==>
        var p := old(View());
        View() ==
          if prim.input.NotSerializable? then Respond(p, Threw(Abort))
          else match CachedPrimitive(snapshot, at, prim, code)
               case Drift => Respond(p, Threw(Abort))
               case Hit(row) => Respond(p, Val(if prim.kind.Wait? then NULL else row.output))
               case Miss => Abandon(p)
      ensures !execute && prim.input.Json? && CachedPrimitive(snapshot, at, prim, code).Miss? ==> old(canceled)
    {
      if prim.input.NotSerializable? {
        Answer(Threw(Abort));
        return false;
      }
      var hit := CachedPrimitive(snapshot, at, prim, code);
      if hit.Drift? {
        Answer(Threw(Abort));
        return false;
      }
      if hit.Hit? {
        Answer(Val(if prim.kind.Wait? then NULL else hit.row.output));
        return false;
      }
      if canceled {
        GiveUpClaim();
        return false;
      }
      return true;
    }

    method DoStep(prim: Primitive)
      requires prim.kind.Step?
      modifies this
      ensures View() == CallPrimitive(code, old(View()), prim, NULL)
    {
      var at := BeginPrimitive();
      if at.None? { return; }
      var execute := MustExecute(at.value, prim);
      if !execute { return; }
      phase := InFn(at.value, prim, DigestOf(prim, code.version));
    }

    method DoWait(prim: Primitive)
      requires prim.kind.Wait?
      modifies this
      ensures View() == CallPrimitive(code, old(View()), prim, NULL)
    {
      var at := BeginPrimitive();
      if at.None? { return; }
      var execute := MustExecute(at.value, prim);
      if !execute { return; }
      Send(SuspendRun(at.value, DigestOf(prim, code.version)), WaitSuspended);
    }

    method DoTriggerAndWait(prim: Primitive)
      requires prim.kind.TriggerAndWait?
      modifies this
      ensures View() == CallPrimitive(code, old(View()), prim, NULL)
    {
      var at := BeginPrimitive();
      if at.None? { return; }
      var execute := MustExecute(at.value, prim);
      if !execute { return; }
      Send(WaitForChildRun(at.value, DigestOf(prim, code.version)), ChildAwaited);
    }

    method DoBatchTrigger(prim: Primitive)
      requires prim.kind.BatchTrigger?
      modifies this
      ensures View() == CallPrimitive(code, old(View()), prim, NULL)
    {
      var at := BeginPrimitive();
      if at.None? { return; }
      var execute := MustExecute(at.value, prim);
      if !execute { return; }
      Send(BatchTriggerChild(at.value, Some(prim.name), DigestOf(prim, code.version)), BatchTriggered);
    }

    method DoDeterministic(prim: Primitive, now: Value)
      requires prim.kind.Now? || prim.kind.Random? || prim.kind.Uuid?
      modifies this
      ensures View() == CallPrimitive(code, old(View()), prim, now)
    {
      var at := BeginPrimitive();
      if at.None? { return; }
      var execute := MustExecute(at.value, prim);
      if !execute { return; }
      Send(ReportStep(at.value, prim.kind, None, DigestOf(prim, code.version), true, now), StepReported(now));
    }

    /** The step's fn settled: report its result, or the failure it threw. */
    method FnSettled(outcome: FnOutcome)
      requires phase.InFn?
      modifies this
      ensures View() == Replay.FnSettled(code, old(View()), outcome)
    {
      var InFn(at, prim, digest) := phase;
      match outcome
      case FnReturned(v) =>
        Send(ReportStep(at, prim.kind, LedgerName(prim), digest, true, v), StepReported(v));
      case FnThrew(abort) =>
        if abortReason.Some? {
          GiveUpClaim();
          return;
        }
        var retry := if abort then NoPolicy else if prim.retry.Policy? then prim.retry else code.retry;
        Send(ReportStep(at, prim.kind, LedgerName(prim), digest, false, NULL), StepFailureReported(abort, retry));
    }

    /** The outstanding write was answered: the code after its await runs. */
    method Deliver()
      requires phase.Calling? && reply.Some?
      modifies this
      ensures View() == Replay.Deliver(old(View()))
    {
      var answer := reply.value;
      var rejected := Abandonment(answer);
      match phase.cont
      case StepReported(output) =>
        if rejected { GiveUpClaim(); }
        else if answer.NonDeterministic? || answer.Unfixable? { Answer(Threw(Abort)); }
        else if answer.Accepted? { Answer(Val(output)); }
        else { Answer(Threw(Lost)); }
      case StepFailureReported(abort, retry) =>
        if rejected { GiveUpClaim(); } else { ReportFailure(abort, retry, InStep); }
      case WaitSuspended =>
        if rejected { GiveUpClaim(); }
        else if answer.Resumed? { Answer(Val(NULL)); }
        else if answer.Suspended? { ThrowSuspend(); }
        else { Answer(Threw(Lost)); }
      case ChildAwaited =>
        if rejected { GiveUpClaim(); }
        else if answer.Unfixable? { Answer(Threw(Abort)); }
        else if answer.Suspended? || answer.Accepted? { ThrowSuspend(); }
        else { Answer(Threw(Lost)); }
      case BatchTriggered =>
        if rejected { GiveUpClaim(); }
        else if answer.Answer? { Answer(Val(answer.value)); }
        else if answer.Unfixable? { Answer(Threw(Abort)); }
        else { Answer(Threw(Lost)); }
      case RunCompleted(output) =>
        if rejected { Settle(Abandons); }
        else if answer.Unfixable? { ReportFailure(true, NoPolicy, AtOutput); }
        else if answer.Accepted? { Settle(Completes(output)); }
        else { Settle(Crashes); }
      case RunFailed(after) =>
        if rejected { abandoned := true; }
        match after {
          case InStep => ThrowDone();
          case BetweenSteps => Settle(if abandoned then Abandons else Fails);
          case AtOutput => Settle(Fails);
          case BeforeBody => Settle(Fails);
        }
    }

    /* ---- the shared small moves ---- */

    method Answer(r: Response)
      modifies this
      ensures View() == Respond(old(View()), r)
    {
      responses := responses + [r];
      phase, reply := BodyTurn, None;
    }

    method ThrowDone()
      modifies this
      ensures View() == EndExecution(old(View()))
    {
      endSignal := Some(SignalDone);
      Answer(Threw(ExecutionDone));
    }

    method ThrowSuspend()
      modifies this
      ensures View() == SuspendBody(old(View()))
    {
      endSignal := Some(SignalSuspend);
      Answer(Threw(SuspendSignal));
    }

    method GiveUpClaim()
      modifies this
      ensures View() == Abandon(old(View()))
    {
      abandoned := true;
      ThrowDone();
    }

    method Settle(r: Result)
      modifies this
      ensures View() == Finish(old(View()), r)
    {
      phase, reply := Finished(r), None;
    }

    method Send(req: Request, cont: Continuation)
      modifies this
      ensures View() == Issue(old(View()), req, cont)
    {
      phase, reply := Calling(req, cont), None;
      issued := issued + [req];
    }

    method ReportFailure(abort: bool, retry: Retry, after: FailedAt)
      modifies this
      ensures View() == Issue(old(View()), FailRun(abort, retry), RunFailed(after))
    {
      Send(FailRun(abort, retry), RunFailed(after));
    }
  }
}
