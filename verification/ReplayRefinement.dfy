/** Replay refines one uninterrupted execution: whatever cuts the passes, the completed rows
    are the results of positions 0, 1, 2, ... of one run of the body, and the run's output is
    what the body returns on exactly those results. */
module ReplayRefinement {
  import opened Options
  import opened RunLedger
  import opened Replay
  import opened ReplayWorld
  import opened ReplayPasses
  import Fencing

  /** The responses of an execution that meets only results. */
  function Vals(vals: seq<Value>): (r: seq<Response>)
    ensures |r| == |vals| && forall i :: 0 <= i < |vals| ==> r[i] == Val(vals[i])
  {
    seq(|vals|, i requires 0 <= i < |vals| => Val(vals[i]))
  }

  lemma ValsExtend(vals: seq<Value>, v: Value)
    ensures Vals(vals + [v]) == Vals(vals) + [Val(v)]
  {
  }

  /** The completed rows are exactly positions 0..|vals|-1, holding those values. */
  ghost predicate Recorded(ledger: Ledger, vals: seq<Value>) {
    && (forall n: nat :: CompletedAt(ledger, n) <==> n < |vals|)
    && (forall n: nat :: n < |vals| ==> n in ledger && ledger[n].output == vals[n])
  }

  ghost predicate AttemptBlind(body: Body) {
    forall a: nat, b: nat, past :: body(a, past) == body(b, past)
  }

  /* ---- when a body gives up ---- */

  /** What a primitive can throw into the body that is not a control-flow signal. A replayed
      row that does not belong to the call site (possible if the body reads the attempt
      number) throws an AbortError too. */
  predicate CanThrow(prim: Primitive, err: Thrown, mayDrift: bool) {
    if prim.input.NotSerializable? then err.Abort?
    else err.Lost? || (err.Abort? && (mayDrift || !prim.kind.Wait?))
  }

  /** The body gets past these results, primitive by primitive. */
  ghost predicate Live(body: Body, a: nat, vals: seq<Value>) {
    forall i :: 0 <= i < |vals| ==> AsksStorable(body(a, Vals(vals[..i])), vals[i])
  }

  predicate AsksStorable(action: Action, v: Value) {
    action.Call? && action.prim.input.Json? && (action.prim.kind.Wait? ==> v == NULL)
  }

  /** The body has swallowed nothing yet, or only failures of primitives since the first. */
  ghost predicate Failing(body: Body, a: nat, past: seq<Response>, mayDrift: bool)
    decreases |past|
  {
    && |past| > 0 && past[|past| - 1].Threw?
    && body(a, past[..|past| - 1]).Call?
    && CanThrow(body(a, past[..|past| - 1]).prim, past[|past| - 1].err, mayDrift)
    && ((exists vals :: past[..|past| - 1] == Vals(vals) && Live(body, a, vals))
        || Failing(body, a, past[..|past| - 1], mayDrift))
  }

  /** After a failed primitive the body ends, or asks only for what cannot be executed. */
  predicate Quits(action: Action) {
    action.Throw? || (action.Call? && action.prim.input.NotSerializable?)
  }

  ghost predicate GivesUp(body: Body, mayDrift: bool) {
    forall a: nat, past :: Failing(body, a, past, mayDrift) ==> Quits(body(a, past))
  }

  /* ---- the invariant ---- */

  /** The row was asked for by the body at this point. */
  predicate AskedFor(action: Action, kind: Kind, name: Option<string>, digest: Option<Fingerprint>, version: Option<string>) {
    && action.Call? && action.prim.input.Json?
    && action.prim.kind == kind && LedgerName(action.prim) == name
    && digest == Some(DigestOf(action.prim, version))
  }

  ghost predicate RowAsked(code: Code, past: seq<Response>, kind: Kind, name: Option<string>, digest: Option<Fingerprint>) {
    exists a: nat :: AskedFor(code.body(a, past), kind, name, digest, code.version)
  }

  ghost predicate RowsAsked(code: Code, ledger: Ledger, vals: seq<Value>) {
    forall n: nat :: n < |vals| ==>
      && n in ledger
      && RowAsked(code, Vals(vals[..n]), ledger[n].kind, ledger[n].name, ledger[n].fingerprint)
      && (ledger[n].kind.Wait? ==> vals[n] == NULL)
  }

  ghost predicate WaitAsked(code: Code, r: Run, vals: seq<Value>) {
    r.wait.Some? ==>
      && r.wait.value.pos == |vals|
      && RowAsked(code, Vals(vals), r.wait.value.kind, None, Some(r.wait.value.fingerprint))
  }

  /** In this attempt the body was evaluated over a prefix of the recorded results to this output. */
  ghost predicate Evaluated(body: Body, a: nat, vals: seq<Value>, output: Value) {
    exists m: nat :: EvaluatedAt(body, a, vals, m, output)
  }

  ghost predicate EvaluatedAt(body: Body, a: nat, vals: seq<Value>, m: nat, output: Value) {
    m <= |vals| && body(a, Vals(vals[..m])) == Return(output)
  }

  /** The pass has been told the first of the recorded results, and nothing else. */
  ghost predicate Clean(body: Body, p: Pass, vals: seq<Value>) {
    && |p.responses| <= |vals|
    && p.responses == Vals(vals[..|p.responses|])
    && Live(body, p.attempt, vals[..|p.responses|])
  }

  /** The write is the one the body asked for. */
  predicate Executes(code: Code, action: Action, phase: Phase) {
    && action.Call? && action.prim.input.Json?
    && var prim := action.prim; var digest := DigestOf(prim, code.version);
    match phase
    case InFn(_, p, d) => p == prim && d == digest
    case Calling(ReportStep(_, kind, name, d, _, _), _) =>
      kind == prim.kind && name == LedgerName(prim) && d == digest && !kind.Wait? && !kind.TriggerAndWait? && !kind.BatchTrigger?
    case Calling(SuspendRun(_, d), _) => prim.kind.Wait? && d == digest
    case Calling(WaitForChildRun(_, d), _) => prim.kind.TriggerAndWait? && d == digest
    case Calling(BatchTriggerChild(_, name, d), _) => prim.kind.BatchTrigger? && name == LedgerName(prim) && d == digest
    case _ => false
  }

  /** An answered primitive is answered with what the ledger now records. */
  predicate AnswerRecorded(p: Pass, vals: seq<Value>) {
    p.phase.Calling? && p.reply.Some? ==>
      var n := |p.responses|;
      && (p.phase.cont.StepReported? && p.reply.value.Accepted? ==> n < |vals| && vals[n] == p.phase.cont.output)
      && (p.phase.cont.BatchTriggered? && p.reply.value.Answer? ==> n < |vals| && vals[n] == p.reply.value.value)
      && (p.phase.cont.WaitSuspended? && p.reply.value.Resumed? ==> n < |vals| && vals[n] == NULL)
  }

  ghost predicate Follows(code: Code, p: Pass, vals: seq<Value>, mayDrift: bool) {
    || p.endSignal.Some?
    || p.phase.Finished?
    || (p.phase.Calling? && p.phase.req.FailRun?)
    || (p.phase.BodyTurn? && Clean(code.body, p, vals) && p.pos == |p.responses|)
    || (p.phase.BodyTurn? && Failing(code.body, p.attempt, p.responses, mayDrift))
    || (InPrimitive(p) && Clean(code.body, p, vals) && p.pos == |p.responses| + 1
        && Executes(code, code.body(p.attempt, p.responses), p.phase) && AnswerRecorded(p, vals))
    || (p.phase.Calling? && p.phase.req.CompleteRun? && Clean(code.body, p, vals)
        && code.body(p.attempt, p.responses) == Return(p.phase.req.output))
  }

  ghost predicate Refines(code: Code, w: World, vals: seq<Value>, mayDrift: bool) {
    && Ordered(w)
    && Recorded(w.run.ledger, vals)
    && RowsAsked(code, w.run.ledger, vals)
    && WaitAsked(code, w.run, vals)
    && (w.run.status.Completed? ==> w.run.output.Some? && Evaluated(code.body, w.run.attempt, vals, w.run.output.value))
    && (forall k :: k in w.passes ==> Follows(code, w.passes[k], vals, mayDrift))
    && (forall l :: l in w.late ==> LateFollows(code, w, l, vals, mayDrift))
    && (forall l, m :: l in w.late && m in w.late && l.token == m.token && PrimitiveWrite(l.req) && PrimitiveWrite(m.req) ==> l == m)
  }

  /** The pass has met a failure, or is about to be told of one, and asks for no further primitive. */
  ghost predicate Spent(code: Code, p: Pass, mayDrift: bool) {
    || p.endSignal.Some?
    || p.phase.Finished?
    || (p.phase.Calling? && p.phase.req.FailRun?)
    || (p.phase.BodyTurn? && Failing(code.body, p.attempt, p.responses, mayDrift))
    || (p.phase.Calling? && PrimitiveWrite(p.phase.req) && p.reply == Some(Failure))
  }

  /** A late write was asked for on the first of the recorded results. While its claim can still
      write, its row is not there, and its pass asks for no other. */
  ghost predicate LateFollows(code: Code, w: World, l: LateWrite, vals: seq<Value>, mayDrift: bool) {
    && l.token in w.passes
    && (PrimitiveWrite(l.req) ==>
          && Spent(code, w.passes[l.token], mayDrift)
          && WritePos(l.req) <= |vals| && WriteAsked(code, l.req, Vals(vals[..WritePos(l.req)]))
          && (Accepts(w.run, l.worker, l.token) ==> !CompletedAt(w.run.ledger, WritePos(l.req))))
    && (l.req.CompleteRun? ==> Evaluated(code.body, w.passes[l.token].attempt, vals, l.req.output))
  }

  /** The row the write would complete is asked for by the body at this point. */
  ghost predicate WriteAsked(code: Code, req: Request, past: seq<Response>)
    requires PrimitiveWrite(req)
  {
    forall token, found :: RowWanted(code, CompletedRow(req, token, found), past)
  }

  ghost predicate RowWanted(code: Code, row: StepRow, past: seq<Response>) {
    RowAsked(code, past, row.kind, row.name, row.fingerprint) && (row.kind.Wait? ==> row.output == NULL)
  }

  ghost predicate Tame(code: Code, mayDrift: bool) {
    GivesUp(code.body, mayDrift) && (mayDrift || AttemptBlind(code.body))
  }

  /* ---- one pass at a time ---- */

  lemma CleanLonger(body: Body, p: Pass, vals: seq<Value>, vals': seq<Value>)
    requires Clean(body, p, vals) && vals <= vals'
    ensures Clean(body, p, vals')
  {
    assert vals[..|p.responses|] == vals'[..|p.responses|];
  }

  lemma FollowsLonger(code: Code, p: Pass, vals: seq<Value>, vals': seq<Value>, mayDrift: bool)
    requires Follows(code, p, vals, mayDrift) && vals <= vals'
    ensures Follows(code, p, vals', mayDrift)
  {
    if Clean(code.body, p, vals) { CleanLonger(code.body, p, vals, vals'); }
  }

  /** A further result keeps a clean pass clean. */
  lemma CleanStep(body: Body, p: Pass, vals: seq<Value>, v: Value, q: Pass)
    requires Clean(body, p, vals) && |p.responses| < |vals| && v == vals[|p.responses|]
    requires AsksStorable(body(p.attempt, p.responses), v)
    requires q.attempt == p.attempt && q.responses == p.responses + [Val(v)]
    ensures Clean(body, q, vals)
  {
    var m := |p.responses|;
    var us := vals[..m + 1];
    assert us == vals[..m] + [v];
    ValsExtend(vals[..m], v);
    forall i | 0 <= i < |us|
      ensures AsksStorable(body(p.attempt, Vals(us[..i])), us[i])
    {
      if i < m { assert us[..i] == vals[..m][..i]; } else { assert us[..m] == vals[..m]; }
    }
  }

  /** The first failure after clean results. */
  lemma FirstFailure(body: Body, p: Pass, vals: seq<Value>, err: Thrown, mayDrift: bool)
    requires Clean(body, p, vals) && body(p.attempt, p.responses).Call?
    requires CanThrow(body(p.attempt, p.responses).prim, err, mayDrift)
    ensures Failing(body, p.attempt, p.responses + [Threw(err)], mayDrift)
  {
    var past := p.responses + [Threw(err)];
    assert past[..|past| - 1] == p.responses == Vals(vals[..|p.responses|]);
  }

  /** An unexecutable call after a failure fails the same way. */
  lemma NextFailure(body: Body, a: nat, past: seq<Response>, mayDrift: bool)
    requires Failing(body, a, past, mayDrift)
    requires body(a, past).Call? && body(a, past).prim.input.NotSerializable?
    ensures Failing(body, a, past + [Threw(Abort)], mayDrift)
  {
    assert (past + [Threw(Abort)])[..|past|] == past;
  }

  /** The replay check never refuses a body that does not read the attempt number. */
  lemma NoDrift(code: Code, p: Pass, w: World, vals: seq<Value>, prim: Primitive)
    requires AttemptBlind(code.body)
    requires Recorded(w.run.ledger, vals) && RowsAsked(code, w.run.ledger, vals)
    requires SnapshotInLedger(p.snapshot, w.run.ledger)
    requires Clean(code.body, p, vals)
    requires code.body(p.attempt, p.responses) == Call(prim) && prim.input.Json?
    ensures !CachedPrimitive(p.snapshot, |p.responses|, prim, code).Drift?
  {
    var n := |p.responses|;
    if CompletedAt(p.snapshot, n) {
      assert CompletedAt(w.run.ledger, n);
      var a: nat :| AskedFor(code.body(a, Vals(vals[..n])), w.run.ledger[n].kind, w.run.ledger[n].name, w.run.ledger[n].fingerprint, code.version);
      assert code.body(a, p.responses) == Call(prim);
    }
  }

  lemma TurnFollows(code: Code, w: World, k: nat, now: Value, vals: seq<Value>, mayDrift: bool)
    requires Refines(code, w, vals, mayDrift) && Tame(code, mayDrift)
    requires k in w.passes && w.passes[k].phase.BodyTurn?
    ensures Follows(code, TakeTurn(code, w.passes[k], now), vals, mayDrift)
  {
    var p := w.passes[k];
    assert LinkedPass(w.run, k, p) && Follows(code, p, vals, mayDrift) && WellPhased(p);
    if p.endSignal.None? {
      if Failing(code.body, p.attempt, p.responses, mayDrift) {
        if code.body(p.attempt, p.responses).Call? { NextFailure(code.body, p.attempt, p.responses, mayDrift); }
      } else {
        CleanTurnFollows(code, w, k, now, vals, mayDrift);
      }
    }
  }

  lemma EndFollows(code: Code, p: Pass, now: Value, vals: seq<Value>, mayDrift: bool)
    requires p.phase.BodyTurn? && p.endSignal.None? && Clean(code.body, p, vals)
    requires !code.body(p.attempt, p.responses).Call?
    ensures Follows(code, TakeTurn(code, p, now), vals, mayDrift)
  {
  }

  lemma CleanTurnFollows(code: Code, w: World, k: nat, now: Value, vals: seq<Value>, mayDrift: bool)
    requires Recorded(w.run.ledger, vals) && RowsAsked(code, w.run.ledger, vals)
    requires mayDrift || AttemptBlind(code.body)
    requires k in w.passes && LinkedPass(w.run, k, w.passes[k])
    requires var p := w.passes[k]; p.phase.BodyTurn? && p.endSignal.None? && !p.abandoned
    requires Clean(code.body, w.passes[k], vals) && w.passes[k].pos == |w.passes[k].responses|
    ensures Follows(code, TakeTurn(code, w.passes[k], now), vals, mayDrift)
  {
    var p := w.passes[k];
    var action := code.body(p.attempt, p.responses);
    if !action.Call? {
      EndFollows(code, p, now, vals, mayDrift);
    } else if Refused(code, p, action.prim) {
      if !mayDrift && action.prim.input.Json? { NoDrift(code, p, w, vals, action.prim); }
      RefusedFollows(code, p, now, vals, mayDrift);
    } else {
      var look := CachedPrimitive(p.snapshot, p.pos, action.prim, code);
      if look.Hit? {
        HitFollows(code, w, k, now, vals, look.row);
      } else {
        MissFollows(code, p, now, vals, mayDrift);
      }
    }
  }

  predicate Refused(code: Code, p: Pass, prim: Primitive) {
    prim.input.NotSerializable? || CachedPrimitive(p.snapshot, p.pos, prim, code).Drift?
  }

  lemma RefusedFollows(code: Code, p: Pass, now: Value, vals: seq<Value>, mayDrift: bool)
    requires p.phase.BodyTurn? && p.endSignal.None? && !p.abandoned && Clean(code.body, p, vals)
    requires var a := code.body(p.attempt, p.responses);
      a.Call? && Refused(code, p, a.prim) && (a.prim.input.Json? ==> mayDrift)
    ensures Follows(code, TakeTurn(code, p, now), vals, mayDrift)
  {
    FirstFailure(code.body, p, vals, Abort, mayDrift);
    assert TakeTurn(code, p, now).responses == p.responses + [Threw(Abort)];
  }

  lemma MissFollows(code: Code, p: Pass, now: Value, vals: seq<Value>, mayDrift: bool)
    requires p.phase.BodyTurn? && p.endSignal.None? && !p.abandoned && Clean(code.body, p, vals) && p.pos == |p.responses|
    requires var a := code.body(p.attempt, p.responses);
      a.Call? && a.prim.input.Json? && CachedPrimitive(p.snapshot, p.pos, a.prim, code).Miss?
    ensures Follows(code, TakeTurn(code, p, now), vals, mayDrift)
  {
    var q := TakeTurn(code, p, now);
    if q.endSignal.None? {
      assert q.responses == p.responses && q.attempt == p.attempt && q.pos == p.pos + 1;
      assert Clean(code.body, q, vals);
    }
  }

  lemma HitFollows(code: Code, w: World, k: nat, now: Value, vals: seq<Value>, row: StepRow)
    requires Recorded(w.run.ledger, vals) && RowsAsked(code, w.run.ledger, vals)
    requires k in w.passes && w.passes[k].phase.BodyTurn? && w.passes[k].endSignal.None? && !w.passes[k].abandoned
    requires LinkedPass(w.run, k, w.passes[k])
    requires Clean(code.body, w.passes[k], vals) && w.passes[k].pos == |w.passes[k].responses|
    requires var a := code.body(w.passes[k].attempt, w.passes[k].responses);
      a.Call? && a.prim.input.Json? && CachedPrimitive(w.passes[k].snapshot, w.passes[k].pos, a.prim, code) == Hit(row)
    ensures var q := TakeTurn(code, w.passes[k], now);
      q.phase.BodyTurn? && Clean(code.body, q, vals) && q.pos == |q.responses|
  {
    var p := w.passes[k];
    var n := |p.responses|;
    assert CompletedAt(p.snapshot, n) && CompletedAt(w.run.ledger, n);
    CleanStep(code.body, p, vals, vals[n], TakeTurn(code, p, now));
  }

  lemma AnswerFollows(code: Code, p: Pass, vals: seq<Value>, mayDrift: bool)
    requires Follows(code, p, vals, mayDrift) && WellPhased(p) && p.phase.Calling? && p.reply.Some?
    requires p.endSignal.None? && PrimitiveWrite(p.phase.req)
    ensures Follows(code, Deliver(p), vals, mayDrift)
  {
    var q := Deliver(p);
    if q.endSignal.None? && q.phase.BodyTurn? {
      if q.responses[|p.responses|].Val? {
        CleanStep(code.body, p, vals, vals[|p.responses|], q);
      } else {
        FirstFailure(code.body, p, vals, q.responses[|p.responses|].err, mayDrift);
      }
    }
  }

  lemma DeliverFollows(code: Code, p: Pass, vals: seq<Value>, mayDrift: bool)
    requires Follows(code, p, vals, mayDrift) && WellPhased(p) && p.phase.Calling? && p.reply.Some?
    ensures Follows(code, Deliver(p), vals, mayDrift)
  {
    if p.endSignal.None? && PrimitiveWrite(p.phase.req) { AnswerFollows(code, p, vals, mayDrift); }
  }

  lemma FnFollows(code: Code, p: Pass, outcome: FnOutcome, vals: seq<Value>, mayDrift: bool)
    requires Follows(code, p, vals, mayDrift) && WellPhased(p) && p.phase.InFn?
    ensures Follows(code, FnSettled(code, p, outcome), vals, mayDrift)
  {
  }

  /* ---- one transaction at a time ---- */

  ghost predicate RowsFollow(code: Code, r: Run, vals: seq<Value>) {
    && Recorded(r.ledger, vals)
    && RowsAsked(code, r.ledger, vals)
    && WaitAsked(code, r, vals)
  }

  /** One new completed row, at the next position and asked for there, is the next result. */
  lemma RowsExtend(code: Code, ledger: Ledger, ledger': Ledger, vals: seq<Value>)
    requires Recorded(ledger, vals) && RowsAsked(code, ledger, vals)
    requires forall n: nat :: CompletedAt(ledger', n) <==> CompletedAt(ledger, n) || n == |vals|
    requires forall n: nat :: CompletedAt(ledger, n) ==> n in ledger' && ledger'[n] == ledger[n]
    requires CompletedAt(ledger', |vals|)
    requires var row := ledger'[|vals|];
      RowAsked(code, Vals(vals), row.kind, row.name, row.fingerprint) && (row.kind.Wait? ==> row.output == NULL)
    ensures Recorded(ledger', vals + [ledger'[|vals|].output]) && RowsAsked(code, ledger', vals + [ledger'[|vals|].output])
  {
    var us := vals + [ledger'[|vals|].output];
    forall n: nat | n < |us|
      ensures n in ledger' && RowAsked(code, Vals(us[..n]), ledger'[n].kind, ledger'[n].name, ledger'[n].fingerprint)
      ensures ledger'[n].kind.Wait? ==> us[n] == NULL
      ensures ledger'[n].output == us[n]
    {
      assert CompletedAt(ledger', n);
      if n < |vals| {
        assert us[..n] == vals[..n] && CompletedAt(ledger, n);
      } else {
        assert us[..n] == vals;
      }
    }
  }

  /** No completed row comes or goes: the results stay what they are. */
  lemma RowsStay(code: Code, ledger: Ledger, ledger': Ledger, vals: seq<Value>)
    requires Recorded(ledger, vals) && RowsAsked(code, ledger, vals)
    requires forall n: nat :: CompletedAt(ledger', n) <==> CompletedAt(ledger, n)
    requires forall n: nat :: CompletedAt(ledger, n) ==> n in ledger' && ledger'[n] == ledger[n]
    ensures Recorded(ledger', vals) && RowsAsked(code, ledger', vals)
  {
    forall n: nat | n < |vals|
      ensures n in ledger' && ledger'[n].output == vals[n]
      ensures RowAsked(code, Vals(vals[..n]), ledger'[n].kind, ledger'[n].name, ledger'[n].fingerprint)
      ensures ledger'[n].kind.Wait? ==> vals[n] == NULL
    {
      assert CompletedAt(ledger, n);
    }
  }

  /** What an accepted primitive write does to the ledger: nothing, a failed row at its own
      position, or a completed one. */
  predicate CompletesRow(r: Run, req: Request, found: Circumstance) {
    match req
    case ReportStep(_, _, _, _, completed, _) => completed && found.storable
    case SuspendRun(_, _) => found.due
    case BatchTriggerChild(_, _, _) => found.storable
    case _ => false
  }

  function CompletedRow(req: Request, token: nat, found: Circumstance): StepRow
    requires PrimitiveWrite(req)
  {
    match req
    case ReportStep(_, kind, name, digest, completed, output) => Row(kind, name, Some(digest), completed, output, token)
    case SuspendRun(_, digest) => Row(Wait, None, Some(digest), true, NULL, token)
    case BatchTriggerChild(_, name, digest) => Row(BatchTrigger, name, Some(digest), true, found.childIds, token)
    case WaitForChildRun(_, digest) => Row(TriggerAndWait, None, Some(digest), true, NULL, token)
  }

  lemma CommitRows(r: Run, worker: nat, token: nat, req: Request, found: Circumstance)
    requires Accepts(r, worker, token) && PrimitiveWrite(req) && !CompletedAt(r.ledger, WritePos(req))
    ensures var r' := Commit(r, worker, token, req, found).run;
      && (CompletesRow(r, req, found) ==> r'.ledger == r.ledger[WritePos(req) := CompletedRow(req, token, found)] && r'.wait == r.wait)
      && (!CompletesRow(r, req, found) ==>
            forall n: nat :: (CompletedAt(r'.ledger, n) <==> CompletedAt(r.ledger, n)) && (CompletedAt(r.ledger, n) ==> r'.ledger[n] == r.ledger[n]))
  {
  }

  lemma CommitAnswers(r: Run, worker: nat, token: nat, req: Request, found: Circumstance)
    requires Accepts(r, worker, token) && PrimitiveWrite(req) && !CompletedAt(r.ledger, WritePos(req))
    ensures var v := Commit(r, worker, token, req, found);
      && (req.ReportStep? && req.completed && v.reply.Accepted? ==> CompletesRow(r, req, found) && req.output == CompletedRow(req, token, found).output)
      && (v.reply.Answer? ==> CompletesRow(r, req, found) && v.reply.value == CompletedRow(req, token, found).output)
      && (v.reply.Resumed? ==> CompletesRow(r, req, found))
      && (v.run.status.Completed? ==> r.status.Completed?)
      && (v.run.wait.Some? && v.run.wait != r.wait ==>
            v.run.wait.value.pos == WritePos(req) && v.run.ledger == r.ledger
            && v.run.wait.value.kind == CompletedRow(req, token, found).kind
            && CompletedRow(req, token, found).name.None?
            && Some(v.run.wait.value.fingerprint) == CompletedRow(req, token, found).fingerprint)
  {
  }

  lemma ExecutesAsked(code: Code, p: Pass)
    requires p.phase.Calling? && PrimitiveWrite(p.phase.req)
    requires Executes(code, code.body(p.attempt, p.responses), p.phase)
    ensures WriteAsked(code, p.phase.req, p.responses)
  {
    forall token, found ensures RowWanted(code, CompletedRow(p.phase.req, token, found), p.responses) {
      var row := CompletedRow(p.phase.req, token, found);
      assert AskedFor(code.body(p.attempt, p.responses), row.kind, row.name, row.fingerprint, code.version);
    }
  }

  /** The holder of the claim is exactly where the ledger ends. */
  lemma HolderAtEnd(code: Code, w: World, k: nat, vals: seq<Value>, mayDrift: bool)
    requires Refines(code, w, vals, mayDrift)
    requires k in w.passes && Holds(w, w.passes[k]) && Outstanding(w.passes[k]) && PrimitiveWrite(w.passes[k].phase.req)
    ensures var p := w.passes[k];
      && p.phase.req.pos == |p.responses| == |vals| && p.responses == Vals(vals)
      && !CompletedAt(w.run.ledger, |vals|)
      && Clean(code.body, p, vals) && Executes(code, code.body(p.attempt, p.responses), p.phase)
  {
    var p := w.passes[k];
    assert WellPhased(p) && Follows(code, p, vals, mayDrift);
    HolderMisses(w, k);
    assert !CompletedAt(w.run.ledger, |p.responses|);
    assert vals[..|vals|] == vals;
  }

  lemma CommitExtendsRows(code: Code, r: Run, worker: nat, token: nat, req: Request, found: Circumstance, vals: seq<Value>)
    returns (vals': seq<Value>)
    requires RowsFollow(code, r, vals) && Consistent(r)
    requires Accepts(r, worker, token) && PrimitiveWrite(req) && WritePos(req) == |vals| && !CompletedAt(r.ledger, |vals|)
    requires WriteAsked(code, req, Vals(vals))
    ensures vals <= vals' && RowsFollow(code, Commit(r, worker, token, req, found).run, vals')
    ensures CompletesRow(r, req, found) ==> vals' == vals + [CompletedRow(req, token, found).output]
  {
    var v := Commit(r, worker, token, req, found);
    CommitRows(r, worker, token, req, found);
    CommitAnswers(r, worker, token, req, found);
    assert RowWanted(code, CompletedRow(req, token, found), Vals(vals));
    if CompletesRow(r, req, found) {
      RowsExtend(code, r.ledger, v.run.ledger, vals);
      vals' := vals + [v.run.ledger[|vals|].output];
    } else {
      RowsStay(code, r.ledger, v.run.ledger, vals);
      vals' := vals;
    }
  }

  lemma CommitPrimitive(code: Code, w: World, k: nat, found: Circumstance, vals: seq<Value>, mayDrift: bool)
    returns (vals': seq<Value>)
    requires Refines(code, w, vals, mayDrift) && Enabled(w, Commits(k, found))
    requires Holds(w, w.passes[k]) && PrimitiveWrite(w.passes[k].phase.req)
    ensures var w' := Next(code, w, Commits(k, found));
      && vals <= vals' && RowsFollow(code, w'.run, vals') && Follows(code, w'.passes[k], vals', mayDrift)
      && !w'.run.status.Completed?
  {
    var p := w.passes[k];
    var req := p.phase.req;
    HolderAtEnd(code, w, k, vals, mayDrift);
    ExecutesAsked(code, p);
    vals' := CommitExtendsRows(code, w.run, p.worker, p.token, req, found, vals);
    CommitAnswers(w.run, p.worker, p.token, req, found);
    CleanLonger(code.body, p, vals, vals');
    AnsweredFollows(code, p, Commit(w.run, p.worker, p.token, req, found).reply, w.run, found, vals, vals', mayDrift);
  }

  lemma AnsweredFollows(code: Code, p: Pass, reply: Reply, r: Run, found: Circumstance, vals: seq<Value>, vals': seq<Value>, mayDrift: bool)
    requires WellPhased(p) && Outstanding(p) && PrimitiveWrite(p.phase.req) && !CompletedAt(r.ledger, WritePos(p.phase.req))
    requires Accepts(r, p.worker, p.token) && reply == Commit(r, p.worker, p.token, p.phase.req, found).reply
    requires Clean(code.body, p, vals') && p.pos == |p.responses| + 1 && |p.responses| == |vals|
    requires Executes(code, code.body(p.attempt, p.responses), p.phase)
    requires vals <= vals'
    requires CompletesRow(r, p.phase.req, found) ==> vals' == vals + [CompletedRow(p.phase.req, p.token, found).output]
    ensures Follows(code, p.(reply := Some(reply)), vals', mayDrift)
  {
    CommitAnswers(r, p.worker, p.token, p.phase.req, found);
    var q := p.(reply := Some(reply));
    assert AnswerRecorded(q, vals');
    assert Clean(code.body, q, vals');
  }

  lemma ResumeRows(code: Code, r: Run, result: Value, vals: seq<Value>) returns (vals': seq<Value>)
    requires Consistent(r) && RowsFollow(code, r, vals)
    ensures vals <= vals' && RowsFollow(code, Resume(r, result), vals')
  {
    var r' := Resume(r, result);
    if r'.ledger == r.ledger {
      vals' := vals;
    } else {
      RowsExtend(code, r.ledger, r'.ledger, vals);
      vals' := vals + [r'.ledger[|vals|].output];
    }
  }

  lemma EvaluatedLonger(body: Body, a: nat, vals: seq<Value>, vals': seq<Value>, output: Value)
    requires Evaluated(body, a, vals, output) && vals <= vals'
    ensures Evaluated(body, a, vals', output)
  {
    var m: nat :| EvaluatedAt(body, a, vals, m, output);
    assert vals[..m] == vals'[..m];
    assert EvaluatedAt(body, a, vals', m, output);
  }

  lemma CompletionEvaluated(code: Code, w: World, k: nat, found: Circumstance, vals: seq<Value>, mayDrift: bool)
    requires Refines(code, w, vals, mayDrift) && Enabled(w, Commits(k, found))
    requires Holds(w, w.passes[k]) && !PrimitiveWrite(w.passes[k].phase.req)
    ensures var w' := Next(code, w, Commits(k, found));
      && RowsFollow(code, w'.run, vals) && Follows(code, w'.passes[k], vals, mayDrift)
      && (w'.run.status.Completed? ==> w'.run.output.Some? && Evaluated(code.body, w'.run.attempt, vals, w'.run.output.value))
  {
    var p := w.passes[k];
    assert WellPhased(p) && LinkedPass(w.run, k, p) && Follows(code, p, vals, mayDrift);
    if p.phase.req.CompleteRun? {
      assert EvaluatedAt(code.body, p.attempt, vals, |p.responses|, p.phase.req.output);
    }
  }

  /* ---- writes that come late ---- */

  lemma LateHeld(code: Code, w: World, l: LateWrite, vals: seq<Value>, mayDrift: bool)
    requires Refines(code, w, vals, mayDrift) && l in w.late && PrimitiveWrite(l.req) && Accepts(w.run, l.worker, l.token)
    ensures WritePos(l.req) == |vals| && !CompletedAt(w.run.ledger, |vals|) && WriteAsked(code, l.req, Vals(vals))
  {
    assert LateFollows(code, w, l, vals, mayDrift);
    assert vals[..|vals|] == vals;
  }

  /** A write that is no primitive's leaves the rows alone, and completes the run only as asked. */
  lemma EndRows(code: Code, r: Run, worker: nat, token: nat, req: Request, found: Circumstance, vals: seq<Value>)
    requires RowsFollow(code, r, vals) && !PrimitiveWrite(req)
    ensures var r' := Commit(r, worker, token, req, found).run;
      && RowsFollow(code, r', vals) && r'.ledger == r.ledger
      && (r'.status.Completed? && !r.status.Completed? ==> req == CompleteRun(req.output) && r'.output == Some(req.output) && r'.attempt == r.attempt)
  {
  }

  lemma ArrivalRows(code: Code, w: World, l: LateWrite, found: Circumstance, vals: seq<Value>, mayDrift: bool)
    returns (vals': seq<Value>)
    requires Refines(code, w, vals, mayDrift) && Enabled(w, Arrives(l, found)) && Accepts(w.run, l.worker, l.token)
    ensures var r := Next(code, w, Arrives(l, found)).run;
      && vals <= vals' && RowsFollow(code, r, vals')
      && (r.status.Completed? ==> r.output.Some? && Evaluated(code.body, r.attempt, vals, r.output.value))
  {
    vals' := vals;
    assert LateFollows(code, w, l, vals, mayDrift) && LateBehind(w, l) && LinkedPass(w.run, l.token, w.passes[l.token]);
    if PrimitiveWrite(l.req) {
      LateHeld(code, w, l, vals, mayDrift);
      vals' := CommitExtendsRows(code, w.run, l.worker, l.token, l.req, found, vals);
      CommitAnswers(w.run, l.worker, l.token, l.req, found);
    } else {
      EndRows(code, w.run, l.worker, l.token, l.req, found, vals);
    }
  }

  /** A spent pass never asks for another primitive. */
  lemma SpentStays(code: Code, w: World, e: Event, k: nat, vals: seq<Value>, mayDrift: bool)
    requires Refines(code, w, vals, mayDrift) && Tame(code, mayDrift) && Enabled(w, e)
    requires k in w.passes && Spent(code, w.passes[k], mayDrift)
    ensures k in Next(code, w, e).passes && Spent(code, Next(code, w, e).passes[k], mayDrift)
  {
    var p := w.passes[k];
    assert LinkedPass(w.run, k, p) && Follows(code, p, vals, mayDrift) && WellPhased(p);
    if !Addresses(e, k) {
      OthersUntouched(code, w, e, k);
    } else if e.Turn? {
      SpentTurn(code, p, e.now, mayDrift);
    } else if e.Delivered? {
      SpentDelivery(code, p, vals, mayDrift);
    }
  }

  lemma SpentTurn(code: Code, p: Pass, now: Value, mayDrift: bool)
    requires WellPhased(p) && p.phase.BodyTurn? && Spent(code, p, mayDrift) && GivesUp(code.body, mayDrift)
    ensures Spent(code, TakeTurn(code, p, now), mayDrift)
  {
    if p.endSignal.None? && code.body(p.attempt, p.responses).Call? {
      NextFailure(code.body, p.attempt, p.responses, mayDrift);
    }
  }

  lemma SpentDelivery(code: Code, p: Pass, vals: seq<Value>, mayDrift: bool)
    requires WellPhased(p) && Follows(code, p, vals, mayDrift) && p.phase.Calling? && p.reply.Some? && Spent(code, p, mayDrift)
    ensures Spent(code, Deliver(p), mayDrift)
  {
    var q := Deliver(p);
    if p.endSignal.None? && PrimitiveWrite(p.phase.req) && q.phase.BodyTurn? && q.endSignal.None? {
      FirstFailure(code.body, p, vals, Lost, mayDrift);
    }
  }

  /** Only the holder can complete a row, and a holder with a late write is spent. */
  lemma LateRowStaysOpen(code: Code, w: World, e: Event, l: LateWrite, vals: seq<Value>, mayDrift: bool)
    requires Refines(code, w, vals, mayDrift) && Enabled(w, e)
    requires l in w.late && l in Next(code, w, e).late && PrimitiveWrite(l.req)
    requires Accepts(Next(code, w, e).run, l.worker, l.token)
    ensures !CompletedAt(Next(code, w, e).run.ledger, WritePos(l.req))
  {
    var p := w.passes[l.token];
    assert LateFollows(code, w, l, vals, mayDrift) && LateBehind(w, l) && LinkedPass(w.run, l.token, p);
    NextKeepsAttempt(code, w, e, l.worker, l.token);
    if e.Commits? {
      var q := w.passes[e.token];
      assert LinkedPass(w.run, e.token, q) && WellPhased(p);
      if Holds(w, q) { assert e.token == l.token && !PrimitiveWrite(p.phase.req); }
      CommitWritesAtPos(w.run, q.worker, q.token, q.phase.req, e.found);
    } else if e.Arrives? {
      var m := e.write;
      if Accepts(w.run, m.worker, m.token) { assert m.token == l.token && m != l && !PrimitiveWrite(m.req); }
      CommitWritesAtPos(w.run, m.worker, m.token, m.req, e.found);
    } else if e.Other? {
      UnfencedWritesAtWait(w.run, e.t);
    }
  }

  lemma LateStays(code: Code, w: World, e: Event, l: LateWrite, vals: seq<Value>, vals': seq<Value>, mayDrift: bool)
    requires Refines(code, w, vals, mayDrift) && Tame(code, mayDrift) && Enabled(w, e) && vals <= vals'
    requires l in w.late && l in Next(code, w, e).late
    ensures LateFollows(code, Next(code, w, e), l, vals', mayDrift)
  {
    var w' := Next(code, w, e);
    assert LateFollows(code, w, l, vals, mayDrift) && LateBehind(w, l) && LinkedPass(w.run, l.token, w.passes[l.token]);
    PassesPersist(code, w, e, l.token);
    NextKeepsWellPhased(code, w, e, l.token);
    if PrimitiveWrite(l.req) {
      var n := WritePos(l.req);
      assert vals'[..n] == vals[..n];
      SpentStays(code, w, e, l.token, vals, mayDrift);
      if Accepts(w'.run, l.worker, l.token) { LateRowStaysOpen(code, w, e, l, vals, mayDrift); }
    } else if l.req.CompleteRun? {
      EvaluatedLonger(code.body, w.passes[l.token].attempt, vals, vals', l.req.output);
    }
  }

  /** The write of a request that is lost. */
  lemma LateStarts(code: Code, w: World, k: nat, vals: seq<Value>, mayDrift: bool)
    requires Refines(code, w, vals, mayDrift) && Enabled(w, RequestLost(k))
    ensures LateFollows(code, Next(code, w, RequestLost(k)), LateOf(w.passes[k]), vals, mayDrift)
    ensures forall l :: l in w.late && l.token == k && PrimitiveWrite(l.req) ==> !PrimitiveWrite(w.passes[k].phase.req)
  {
    var p := w.passes[k];
    assert LinkedPass(w.run, k, p) && Follows(code, p, vals, mayDrift) && WellPhased(p);
    forall l | l in w.late && l.token == k && PrimitiveWrite(l.req) ensures !PrimitiveWrite(p.phase.req) {
      assert LateFollows(code, w, l, vals, mayDrift);
    }
    if PrimitiveWrite(p.phase.req) {
      ExecutesAsked(code, p);
      if Holds(w, p) { HolderMisses(w, k); }
    } else if p.phase.req.CompleteRun? {
      assert p.endSignal.None?;
      assert EvaluatedAt(code.body, p.attempt, vals, |p.responses|, p.phase.req.output);
    }
  }

  lemma NextLate(code: Code, w: World, e: Event, vals: seq<Value>, vals': seq<Value>, mayDrift: bool)
    requires Refines(code, w, vals, mayDrift) && Tame(code, mayDrift) && Enabled(w, e) && vals <= vals'
    requires e.RequestLost? ==> vals' == vals
    ensures var w' := Next(code, w, e);
      && (forall l :: l in w'.late ==> LateFollows(code, w', l, vals', mayDrift))
      && (forall l, m :: l in w'.late && m in w'.late && l.token == m.token && PrimitiveWrite(l.req) && PrimitiveWrite(m.req) ==> l == m)
  {
    var w' := Next(code, w, e);
    if e.RequestLost? {
      LateStarts(code, w, e.token, vals, mayDrift);
      assert LinkedPass(w.run, e.token, w.passes[e.token]);
    }
    forall l | l in w'.late ensures LateFollows(code, w', l, vals', mayDrift) {
      if l in w.late { LateStays(code, w, e, l, vals, vals', mayDrift); }
    }
  }

  /* ---- the main theorem ---- */

  lemma OtherKeepsRows(code: Code, r: Run, t: Fencing.Transaction, vals: seq<Value>) returns (vals': seq<Value>)
    requires Consistent(r) && RowsFollow(code, r, vals) && Unfenced(t)
    ensures vals <= vals' && RowsFollow(code, Fencing.Apply(r, t), vals')
    ensures Fencing.Apply(r, t).status.Completed? ==> r.status.Completed?
  {
    if t.ResumeWait? {
      vals' := ResumeRows(code, r, t.result, vals);
    } else {
      vals' := vals;
      assert Fencing.Apply(r, t).ledger == r.ledger;
    }
  }

  /** What an event does to the rows' results. */
  lemma NextRows(code: Code, w: World, e: Event, vals: seq<Value>, mayDrift: bool) returns (vals': seq<Value>)
    requires Refines(code, w, vals, mayDrift) && Enabled(w, e)
    ensures var w' := Next(code, w, e);
      && vals <= vals' && RowsFollow(code, w'.run, vals')
      && (w'.run.status.Completed? ==> w'.run.output.Some? && Evaluated(code.body, w'.run.attempt, vals', w'.run.output.value))
      && (e.Commits? ==> Follows(code, w'.passes[e.token], vals', mayDrift))
      && (e.RequestLost? ==> vals' == vals)
  {
    vals' := vals;
    NextAdvances(code, w, e);
    if e.Other? {
      vals' := OtherKeepsRows(code, w.run, e.t, vals);
    } else if e.Commits? && Holds(w, w.passes[e.token]) {
      assert Follows(code, w.passes[e.token], vals, mayDrift) && WellPhased(w.passes[e.token]);
      if PrimitiveWrite(w.passes[e.token].phase.req) {
        vals' := CommitPrimitive(code, w, e.token, e.found, vals, mayDrift);
      } else {
        CompletionEvaluated(code, w, e.token, e.found, vals, mayDrift);
      }
    } else if e.Arrives? && Accepts(w.run, e.write.worker, e.write.token) {
      vals' := ArrivalRows(code, w, e.write, e.found, vals, mayDrift);
      if Next(code, w, e).run.status.Completed? {
        EvaluatedLonger(code.body, Next(code, w, e).run.attempt, vals, vals', Next(code, w, e).run.output.value);
      }
    } else if e.Commits? {
      assert Follows(code, w.passes[e.token], vals, mayDrift) && WellPhased(w.passes[e.token]);
      RejectedFollows(code, w.passes[e.token], w.run, e.found, vals, mayDrift);
    }
    if w.run.status.Completed? { EvaluatedLonger(code.body, w.run.attempt, vals, vals', w.run.output.value); }
  }

  lemma RejectedFollows(code: Code, p: Pass, r: Run, found: Circumstance, vals: seq<Value>, mayDrift: bool)
    requires Follows(code, p, vals, mayDrift) && Outstanding(p) && !Accepts(r, p.worker, p.token)
    ensures var v := Commit(r, p.worker, p.token, p.phase.req, found);
      v.run == r && Follows(code, p.(reply := Some(v.reply)), vals, mayDrift)
  {
  }

  lemma NextFollows(code: Code, w: World, e: Event, k: nat, vals: seq<Value>, mayDrift: bool)
    requires Refines(code, w, vals, mayDrift) && Tame(code, mayDrift) && Enabled(w, e)
    requires k in Next(code, w, e).passes && !(e.Commits? && e.token == k)
    ensures Follows(code, Next(code, w, e).passes[k], vals, mayDrift)
  {
    PassesPersist(code, w, e, k);
    if e.Claimed? && k == w.run.token + 1 {
      StartFollows(code, e.worker, Claim(w.run, e.worker), e.preflight, vals, mayDrift);
    } else if !Addresses(e, k) {
      OthersUntouched(code, w, e, k);
      assert Follows(code, w.passes[k], vals, mayDrift);
    } else {
      assert Follows(code, w.passes[k], vals, mayDrift) && WellPhased(w.passes[k]);
      if e.Turn? {
        TurnFollows(code, w, k, e.now, vals, mayDrift);
      } else if e.FnSettles? {
        FnFollows(code, w.passes[k], e.outcome, vals, mayDrift);
      } else if e.Delivered? {
        DeliverFollows(code, w.passes[k], vals, mayDrift);
      } else if e.Marked? {
        MarkFollows(code, w.passes[k], e.reason, vals, mayDrift);
      } else {
        FailureFollows(code, w.passes[k], vals, mayDrift);
      }
    }
  }

  lemma StartFollows(code: Code, worker: nat, r: Run, preflight: Preflight, vals: seq<Value>, mayDrift: bool)
    ensures Follows(code, Start(worker, r, preflight), vals, mayDrift)
  {
    assert vals[..0] == [] && Vals([]) == [];
  }

  lemma FailureFollows(code: Code, p: Pass, vals: seq<Value>, mayDrift: bool)
    requires Follows(code, p, vals, mayDrift)
    ensures Follows(code, p.(reply := Some(Failure)), vals, mayDrift)
  {
  }

  lemma MarkFollows(code: Code, p: Pass, reason: AbortReason, vals: seq<Value>, mayDrift: bool)
    requires Follows(code, p, vals, mayDrift)
    ensures Follows(code, Mark(p, reason), vals, mayDrift)
  {
  }

  lemma NextRefines(code: Code, w: World, e: Event, vals: seq<Value>, mayDrift: bool) returns (vals': seq<Value>)
    requires Refines(code, w, vals, mayDrift) && Tame(code, mayDrift) && Enabled(w, e)
    ensures vals <= vals' && Refines(code, Next(code, w, e), vals', mayDrift)
  {
    vals' := NextRows(code, w, e, vals, mayDrift);
    NextKeepsOrdered(code, w, e);
    NextLate(code, w, e, vals, vals', mayDrift);
    forall k | k in Next(code, w, e).passes
      ensures Follows(code, Next(code, w, e).passes[k], vals', mayDrift)
    {
      if !(e.Commits? && e.token == k) {
        NextFollows(code, w, e, k, vals, mayDrift);
        FollowsLonger(code, Next(code, w, e).passes[k], vals, vals', mayDrift);
      }
    }
  }

  lemma {:induction false} HistoryRefines(code: Code, w: World, es: seq<Event>, vals: seq<Value>, mayDrift: bool)
    returns (vals': seq<Value>)
    requires Refines(code, w, vals, mayDrift) && Tame(code, mayDrift)
    ensures vals <= vals' && Refines(code, History(code, w, es), vals', mayDrift)
    decreases es
  {
    vals' := vals;
    if es != [] {
      var w1 := w;
      if Enabled(w, es[0]) {
        w1 := Next(code, w, es[0]);
        vals' := NextRefines(code, w, es[0], vals, mayDrift);
      }
      vals' := HistoryRefines(code, w1, es[1..], vals', mayDrift);
    }
  }
}
