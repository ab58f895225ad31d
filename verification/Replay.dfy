/** One execution pass of a task body: what the code between two awaits does to the pass.
    The body is an arbitrary resumption; the environment decides every reply, every step
    outcome and every mark from the worker loop. */
module Replay {
  import opened Options
  import opened RunLedger

  /* ---- what the task body sees and does ---- */

  /** Everything user code can catch. Lost stands for any error the executor passes through
      unclassified; Abort for an AbortError; the last one for user code's own errors. */
  datatype Thrown = Lost | Abort | SuspendSignal | ExecutionDone | UserError(code: nat)

  datatype Response = Val(value: Value) | Threw(err: Thrown)

  /** A primitive's persistable inputs, up to equality of their JSON; or none at all. */
  datatype Input = Json(value: Value) | NotSerializable

  /** A durable primitive call. `name` is the label of a step or a batch trigger. */
  datatype Primitive = Primitive(kind: Kind, name: string, input: Input, retry: Retry)

  datatype Action = Call(prim: Primitive) | Return(value: Value) | Throw(err: Thrown)

  /** The body: from the attempt number and the responses so far to what it does next. */
  type Body = (nat, seq<Response>) -> Action

  datatype Code = Code(body: Body, version: Option<string>, strict: bool, retry: Retry)

  /** The label a call site presents to the replay check. */
  function CallName(p: Primitive): Option<string> {
    if p.kind.Step? || p.kind.BatchTrigger? || p.kind.TriggerAndWait? then Some(p.name) else None
  }

  /** The label the ledger row stores and the fingerprint covers. */
  function LedgerName(p: Primitive): Option<string> {
    if p.kind.Step? || p.kind.BatchTrigger? then Some(p.name) else None
  }

  function DigestOf(p: Primitive, version: Option<string>): Fingerprint
    requires p.input.Json?
  {
    Fingerprint(p.kind, LedgerName(p), p.input.value, version)
  }

  /* ---- the replay check ---- */

  datatype Lookup<F> = Miss | Hit(row: Row<F>) | Drift

  /** Whether the recorded row at this position belongs to this call site. `renamed` is the
      fingerprint this call site would have under the recorded label. */
  function Cached<F(==)>(
      snapshot: map<nat, Row<F>>, pos: nat, kind: Kind, name: Option<string>,
      digest: F, renamed: string -> F, strict: bool): Lookup<F>
  {
    if pos !in snapshot || !snapshot[pos].completed then Miss
    else
      var row := snapshot[pos];
      if row.kind != kind then Drift
      else if name.Some? && row.name.Some? && name != row.name then
        if row.fingerprint.None? then Hit(row)
        else if row.fingerprint.value != renamed(row.name.value) then Drift
        else if strict then Drift
        else Hit(row)
      else if row.fingerprint.None? then Hit(row)
      else if row.fingerprint.value != digest then Drift
      else Hit(row)
  }

  function CachedPrimitive(snapshot: Ledger, pos: nat, p: Primitive, code: Code): Lookup<Fingerprint>
    requires p.input.Json?
  {
    Cached(snapshot, pos, p.kind, CallName(p), DigestOf(p, code.version),
           oldName => Fingerprint(p.kind, Some(oldName), p.input.value, code.version), code.strict)
  }

  /* ---- the pass ---- */

  datatype Result = Completes(output: Value) | Fails | Suspends | Abandons | Crashes

  /** Where a fenced write's await sits, with what the code after it still needs. */
  datatype Continuation =
    | StepReported(output: Value)
    | StepFailureReported(abort: bool, retry: Retry)
    | WaitSuspended
    | ChildAwaited
    | BatchTriggered
    | RunCompleted(output: Value)
    | RunFailed(after: FailedAt)

  datatype FailedAt = InStep | BetweenSteps | AtOutput | BeforeBody

  datatype Phase =
    | BodyTurn
    | InFn(pos: nat, prim: Primitive, digest: Fingerprint)
    | Calling(req: Request, cont: Continuation)
    | Finished(result: Result)

  datatype EndSignal = SignalSuspend | SignalDone

  datatype AbortReason = ReasonCanceled | ReasonShuttingDown | ReasonLeaseLost

  /** The fields of one executor, the point where its code is suspended, the responses the
      body has seen, and (a history variable) the fenced writes issued so far. */
  datatype Pass = Pass(
    worker: nat, token: nat, attempt: nat, snapshot: Ledger,
    pos: nat, responses: seq<Response>, phase: Phase, reply: Option<Reply>,
    endSignal: Option<EndSignal>, abandoned: bool, canceled: bool, abortReason: Option<AbortReason>,
    issued: seq<Request>)

  /** How the claim found the run: over the ledger cap, with a payload that fails
      validation, or fit to execute. */
  datatype Preflight = Fit | Truncated | InvalidPayload

  function Start(worker: nat, run: Run, preflight: Preflight): Pass {
    var p := Pass(worker, run.token, run.attempt, run.ledger, 0, [], BodyTurn, None, None, false, false, None, []);
    if preflight.Fit? then p else Issue(p, FailRun(true, NoPolicy), RunFailed(BeforeBody))
  }

  function Issue(p: Pass, req: Request, cont: Continuation): Pass {
    p.(phase := Calling(req, cont), reply := None, issued := p.issued + [req])
  }

  function Respond(p: Pass, r: Response): Pass {
    p.(responses := p.responses + [r], phase := BodyTurn, reply := None)
  }

  function Finish(p: Pass, r: Result): Pass {
    p.(phase := Finished(r), reply := None)
  }

  /** Ends the attempt by throwing ExecutionDone into the body. */
  function EndExecution(p: Pass): Pass {
    Respond(p.(endSignal := Some(SignalDone)), Threw(ExecutionDone))
  }

  function Abandon(p: Pass): Pass {
    EndExecution(p.(abandoned := true))
  }

  function SuspendBody(p: Pass): Pass {
    Respond(p.(endSignal := Some(SignalSuspend)), Threw(SuspendSignal))
  }

  /** The body calls a durable primitive. `now` is the value a deterministic substitute
      (clock, random number, uuid) produces if it is not replayed. */
  function CallPrimitive(code: Code, p: Pass, prim: Primitive, now: Value): Pass {
    if p.endSignal.Some? then Respond(p, Threw(Abort))
    else if p.abandoned then EndExecution(p)
    else
      var pos := p.pos;
      var p := p.(pos := pos + 1);
      if prim.input.NotSerializable? then Respond(p, Threw(Abort))
      else
        match CachedPrimitive(p.snapshot, pos, prim, code)
        case Drift => Respond(p, Threw(Abort))
        case Hit(row) => Respond(p, Val(if prim.kind.Wait? then NULL else row.output))
        case Miss =>
          if p.canceled then Abandon(p)
          else
            var digest := DigestOf(prim, code.version);
            match prim.kind
            case Step => p.(phase := InFn(pos, prim, digest))
            case Wait => Issue(p, SuspendRun(pos, digest), WaitSuspended)
            case TriggerAndWait => Issue(p, WaitForChildRun(pos, digest), ChildAwaited)
            case BatchTrigger => Issue(p, BatchTriggerChild(pos, LedgerName(prim), digest), BatchTriggered)
            case _ => Issue(p, ReportStep(pos, prim.kind, None, digest, true, now), StepReported(now))
  }

  /** run() returned: complete the run, unless a signal was swallowed on the way. */
  function BodyReturned(p: Pass, value: Value): Pass {
    if p.endSignal.Some? then Finish(p, EndedWithoutUs(p))
    else if p.abandoned then Finish(p, Abandons)
    else Issue(p, CompleteRun(value), RunCompleted(value))
  }

  function EndedWithoutUs(p: Pass): Result {
    if p.endSignal == Some(SignalSuspend) then Suspends else if p.abandoned then Abandons else Fails
  }

  /** run() threw: classify what escaped. */
  function BodyThrew(code: Code, p: Pass, err: Thrown): Pass {
    match err
    case SuspendSignal => Finish(p, Suspends)
    case ExecutionDone => Finish(p, if p.abandoned then Abandons else Fails)
    case _ =>
      if p.abandoned || p.abortReason.Some? then Finish(p, Abandons)
      else Issue(p, FailRun(err.Abort?, if err.Abort? then NoPolicy else code.retry), RunFailed(BetweenSteps))
  }

  function TakeTurn(code: Code, p: Pass, now: Value): Pass {
    match code.body(p.attempt, p.responses)
    case Call(prim) => CallPrimitive(code, p, prim, now)
    case Return(value) => BodyReturned(p, value)
    case Throw(err) => BodyThrew(code, p, err)
  }

  datatype FnOutcome = FnReturned(value: Value) | FnThrew(abort: bool)

  /** The step's fn settled. Its throw is our own abort landing, or a step failure. */
  function FnSettled(code: Code, p: Pass, outcome: FnOutcome): Pass
    requires p.phase.InFn?
  {
    var InFn(pos, prim, digest) := p.phase;
    match outcome
    case FnReturned(v) =>
      Issue(p, ReportStep(pos, prim.kind, LedgerName(prim), digest, true, v), StepReported(v))
    case FnThrew(abort) =>
      if p.abortReason.Some? then Abandon(p)
      else
        var retry := if abort then NoPolicy else if prim.retry.Policy? then prim.retry else code.retry;
        Issue(p, ReportStep(pos, prim.kind, LedgerName(prim), digest, false, NULL), StepFailureReported(abort, retry))
  }

  predicate Abandonment(r: Reply) {
    r.RunNotRunning? || r.StaleLease?
  }

  /** The reply of the outstanding write reaches the code behind the await. */
  function Deliver(p: Pass): Pass
    requires p.phase.Calling? && p.reply.Some?
  {
    var reply := p.reply.value;
    match p.phase.cont
    case StepReported(output) =>
      if Abandonment(reply) then Abandon(p)
      else if reply.NonDeterministic? || reply.Unfixable? then Respond(p, Threw(Abort))
      else if reply.Accepted? then Respond(p, Val(output))
      else Respond(p, Threw(Lost))
    case StepFailureReported(abort, retry) =>
      if Abandonment(reply) then Abandon(p)
      else Issue(p, FailRun(abort, retry), RunFailed(InStep))
    case WaitSuspended =>
      if Abandonment(reply) then Abandon(p)
      else if reply.Resumed? then Respond(p, Val(NULL))
      else if reply.Suspended? then SuspendBody(p)
      else Respond(p, Threw(Lost))
    case ChildAwaited =>
      if Abandonment(reply) then Abandon(p)
      else if reply.Unfixable? then Respond(p, Threw(Abort))
      else if reply.Suspended? || reply.Accepted? then SuspendBody(p)
      else Respond(p, Threw(Lost))
    case BatchTriggered =>
      if Abandonment(reply) then Abandon(p)
      else if reply.Answer? then Respond(p, Val(reply.value))
      else if reply.Unfixable? then Respond(p, Threw(Abort))
      else Respond(p, Threw(Lost))
    case RunCompleted(output) =>
      if reply.Accepted? then Finish(p, Completes(output))
      else if Abandonment(reply) then Finish(p, Abandons)
      else if reply.Unfixable? then Issue(p, FailRun(true, NoPolicy), RunFailed(AtOutput))
      else Finish(p, Crashes)
    case RunFailed(after) =>
      var p := if Abandonment(reply) then p.(abandoned := true) else p;
      match after
      case InStep => EndExecution(p)
      case BetweenSteps => Finish(p, if p.abandoned then Abandons else Fails)
      case AtOutput => Finish(p, Fails)
      case BeforeBody => Finish(p, Fails)
  }

  /** A mark from the worker loop; the first abort reason wins. */
  function Mark(p: Pass, reason: AbortReason): Pass {
    p.(canceled := p.canceled || reason.ReasonCanceled?,
       abortReason := if p.abortReason.Some? then p.abortReason else Some(reason))
  }
}
