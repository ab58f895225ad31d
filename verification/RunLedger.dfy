/** The durable side of one run: its row, its queue row, its step ledger and its pending
    wait, with every transaction that may touch them. A transaction is a function from the
    old rows to the new rows and the reply the caller would see. */
module RunLedger {
  import opened Options

  /** A JSON value as stored. Only equality matters here; NULL is what a wait records. */
  type Value = int
  const NULL: Value := 0

  datatype Kind = Step | Wait | TriggerAndWait | BatchTrigger | Now | Random | Uuid

  /** The replay fingerprint: an injective digest of what it is computed from. */
  datatype Fingerprint = Fingerprint(kind: Kind, name: Option<string>, input: Value, codeVersion: Option<string>)

  /** A ledger row. `claim` is a history variable: the fencing token of the claim under
      which the row was written (for a resumed wait, the claim that suspended). */
  datatype Row<F> = Row(
    kind: Kind, name: Option<string>, fingerprint: Option<F>,
    completed: bool, output: Value, claim: nat)

  type StepRow = Row<Fingerprint>
  type Ledger = map<nat, StepRow>

  datatype Status = Queued | Running | Waiting | Completed | Failed | Canceled

  /** The run's queue row: absent, present and claimable, or locked by a worker. */
  datatype QueueRow = NoRow | Unlocked | LockedBy(worker: nat)

  datatype PendingWait = PendingWait(pos: nat, kind: Kind, fingerprint: Fingerprint, claim: nat)

  datatype Run = Run(
    status: Status, token: nat, queue: QueueRow,
    attempt: nat, maxAttempts: nat, recoveries: nat, maxRecoveries: nat,
    ledger: Ledger, wait: Option<PendingWait>, output: Option<Value>)

  /** A retry policy as the failure report carries it; an absent field means the run's own. */
  datatype Retry = NoPolicy | Policy(maxAttempts: Option<nat>)

  /** The fenced writes a worker can ask for. */
  datatype Request =
    | ReportStep(pos: nat, kind: Kind, name: Option<string>, fingerprint: Fingerprint, completed: bool, output: Value)
    | SuspendRun(pos: nat, fingerprint: Fingerprint)
    | WaitForChildRun(pos: nat, fingerprint: Fingerprint)
    | BatchTriggerChild(pos: nat, name: Option<string>, fingerprint: Fingerprint)
    | CompleteRun(output: Value)
    | FailRun(abort: bool, retry: Retry)

  /** What the worker sees. Failure is any error the executor does not classify: a lost
      request, a lost reply, a database error. */
  datatype Reply =
    | Accepted
    | Answer(value: Value)
    | Resumed
    | Suspended
    | RunNotRunning
    | StaleLease
    | Unfixable
    | NonDeterministic
    | Failure

  /** What the transaction finds that the rows do not say: whether the reported value can be stored;
      whether a wait is already due or, for a batch that cannot be stored, whether that is found only
      once its children exist; and the ids of the children it would create. */
  datatype Circumstance = Circumstance(storable: bool, due: bool, childIds: Value)

  datatype Verdict = Verdict(run: Run, reply: Reply)

  predicate Terminal(s: Status) {
    s.Completed? || s.Failed? || s.Canceled?
  }

  predicate CompletedAt(ledger: Ledger, pos: nat) {
    pos in ledger && ledger[pos].completed
  }

  /** The fencing guard: running, locked by this worker, and under this very claim. */
  predicate Accepts(r: Run, worker: nat, token: nat) {
    r.status.Running? && r.queue == LockedBy(worker) && r.token == token
  }

  /** A step-row write. A completed row is never overwritten: the write is then either
      idempotent (fingerprints agree or one side has none) or refused (None). */
  function UpsertStep(ledger: Ledger, pos: nat, row: StepRow): (r: Option<Ledger>)
    ensures r.Some? ==> forall n :: CompletedAt(ledger, n) ==> CompletedAt(r.value, n) && r.value[n] == ledger[n]
    ensures r.Some? ==> forall n :: CompletedAt(r.value, n) ==> CompletedAt(ledger, n) || (n == pos && r.value[n] == row)
  {
    if !CompletedAt(ledger, pos) then Some(ledger[pos := row])
    else
      var stored := ledger[pos].fingerprint;
      if stored.None? || row.fingerprint.None? || stored == row.fingerprint then Some(ledger)
      else None
  }

  /** A terminal failure drops the queue row and cancels the pending wait. */
  function TerminalFail(r: Run): Run {
    r.(status := Failed, queue := NoRow, wait := None)
  }

  function Report(r: Run, pos: nat, row: StepRow, storable: bool): Verdict {
    var written := if storable then row else row.(completed := false, output := NULL);
    match UpsertStep(r.ledger, pos, written)
    case None => Verdict(r, NonDeterministic)
    case Some(ledger) =>
      var refused := !storable && !CompletedAt(r.ledger, pos);
      Verdict(r.(ledger := ledger), if refused then Unfixable else Accepted)
  }

  function Suspend(r: Run, wait: PendingWait, due: bool): Verdict {
    if due then
      match UpsertStep(r.ledger, wait.pos, Row(Wait, None, Some(wait.fingerprint), true, NULL, wait.claim))
      case None => Verdict(r, NonDeterministic)
      case Some(ledger) => Verdict(r.(ledger := ledger), Resumed)
    else
      Verdict(r.(status := Waiting, queue := NoRow, wait := Some(wait)), Suspended)
  }

  /** An earlier pass may have created the child already: then nothing is written. */
  function WaitForChild(r: Run, wait: PendingWait, storable: bool): Verdict {
    if CompletedAt(r.ledger, wait.pos) || (r.wait.Some? && r.wait.value.pos == wait.pos && r.wait.value.kind == TriggerAndWait) then
      Verdict(r, Accepted)
    else if !storable then Verdict(r, Unfixable)
    else Verdict(r.(status := Waiting, queue := NoRow, wait := Some(wait)), Suspended)
  }

  /** A batch is refused before anything is written, or with its children and a failed row. */
  function TriggerBatch(r: Run, pos: nat, row: StepRow, storable: bool, created: bool): Verdict {
    if CompletedAt(r.ledger, pos) then Verdict(r, Answer(r.ledger[pos].output))
    else if !storable then
      Verdict(if created then r.(ledger := r.ledger[pos := row.(completed := false, output := NULL)]) else r, Unfixable)
    else Verdict(r.(ledger := r.ledger[pos := row]), Answer(row.output))
  }

  function Complete(r: Run, output: Value, storable: bool): Verdict {
    if storable then Verdict(r.(status := Completed, queue := NoRow, output := Some(output)), Accepted)
    else Verdict(r, Unfixable)
  }

  /** A failure goes back to the queue while the attempt budget lasts, unless it aborts. */
  function Fail(r: Run, abort: bool, retry: Retry): Verdict {
    var budget := if retry.Policy? && retry.maxAttempts.Some? then retry.maxAttempts.value else r.maxAttempts;
    if !abort && r.attempt < budget then
      Verdict(r.(status := Queued, queue := Unlocked, attempt := r.attempt + 1), Accepted)
    else Verdict(TerminalFail(r), Accepted)
  }

  /** One fenced write: the guard, then the mutation, in one transaction. */
  function Commit(r: Run, worker: nat, token: nat, req: Request, c: Circumstance): Verdict {
    if !r.status.Running? then Verdict(r, RunNotRunning)
    else if !Accepts(r, worker, token) then Verdict(r, StaleLease)
    else match req
      case ReportStep(pos, kind, name, fp, completed, output) =>
        Report(r, pos, Row(kind, name, Some(fp), completed, output, token), c.storable)
      case SuspendRun(pos, fp) => Suspend(r, PendingWait(pos, Wait, fp, token), c.due)
      case WaitForChildRun(pos, fp) => WaitForChild(r, PendingWait(pos, TriggerAndWait, fp, token), c.storable)
      case BatchTriggerChild(pos, name, fp) =>
        TriggerBatch(r, pos, Row(BatchTrigger, name, Some(fp), true, c.childIds, token), c.storable, c.due)
      case CompleteRun(output) => Complete(r, output, c.storable)
      case FailRun(abort, retry) => Fail(r, abort, retry)
  }

  /* ---- transactions no worker's credentials guard ---- */

  predicate Claimable(r: Run) {
    r.status.Queued? && r.queue.Unlocked?
  }

  /** The claim: flips the run and mints the next token. The only place the token moves. */
  function Claim(r: Run, worker: nat): Run
    requires Claimable(r)
  {
    r.(status := Running, queue := LockedBy(worker), token := r.token + 1)
  }

  function Cancel(r: Run): Run {
    if Terminal(r.status) then r else r.(status := Canceled, queue := NoRow, wait := None)
  }

  /** The lease reaper on an expired lease: spends a recovery, or fails a run without any. */
  function Reap(r: Run): Run {
    if !r.queue.LockedBy? then r
    else if !r.status.Running? then r.(queue := if Terminal(r.status) then NoRow else Unlocked)
    else if r.recoveries >= r.maxRecoveries then TerminalFail(r)
    else r.(status := Queued, queue := Unlocked, recoveries := r.recoveries + 1)
  }

  /** The shutdown hand-back: neither budget moves, and the token stays. */
  function Release(r: Run, worker: nat): Run {
    if r.queue != LockedBy(worker) then r
    else r.(status := if r.status.Running? then Queued else r.status, queue := Unlocked)
  }

  /** A due timer, or a finished child with its result, resolves the pending wait. */
  function Resume(r: Run, result: Value): Run {
    if r.wait.None? || !r.status.Waiting? then r
    else
      var w := r.wait.value;
      var row := Row(w.kind, None, Some(w.fingerprint), true, if w.kind.Wait? then NULL else result, w.claim);
      match UpsertStep(r.ledger, w.pos, row)
      case None => r
      case Some(ledger) => r.(status := Queued, queue := Unlocked, ledger := ledger, wait := None)
  }

  /** The awaited child was deleted: no result can ever arrive. */
  function LoseChild(r: Run): Run {
    if r.wait.None? || !r.status.Waiting? || !r.wait.value.kind.TriggerAndWait? then r else TerminalFail(r)
  }

  /** What every committed state of the rows satisfies. */
  ghost predicate Consistent(r: Run) {
    && (r.status.Running? <==> r.queue.LockedBy?)
    && (r.status.Queued? <==> r.queue.Unlocked?)
    && (r.status.Waiting? <==> r.wait.Some?)
    && (r.status.Completed? <==> r.output.Some?)
    && r.recoveries <= r.maxRecoveries
    && (r.wait.Some? ==> r.wait.value.claim == r.token)
    && (forall n :: CompletedAt(r.ledger, n) ==> r.ledger[n].claim <= r.token)
  }

  /** A run as it is first queued. */
  predicate Fresh(r: Run) {
    && r.status.Queued? && r.queue.Unlocked? && r.wait.None? && r.output.None?
    && r.token == 0 && r.attempt == 1 && r.recoveries == 0 && r.ledger == map[]
  }

  /** What one transaction may do to the rows: completed rows are immutable, the token never
      falls, and a terminal run is never touched again. */
  ghost predicate Advances(r: Run, r': Run) {
    && r.token <= r'.token
    && (forall n :: CompletedAt(r.ledger, n) ==> CompletedAt(r'.ledger, n) && r'.ledger[n] == r.ledger[n])
    && (Terminal(r.status) ==> r' == r)
    && r'.attempt >= r.attempt
  }
}
