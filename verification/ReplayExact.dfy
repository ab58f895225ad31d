/** Exactly which task bodies replay faithfully: those that give up after a failed primitive.
    For every other body a history is built in which its ledger has a gap or its output is not
    what the recorded results determine. */
module ReplayExact {
  import opened Options
  import opened RunLedger
  import opened Replay
  import opened ReplayWorld
  import opened ReplayPasses
  import opened ReplayRefinement
  import Fencing
  import ReplayEffects

  /** The ledger is one gapless prefix of results, and a completed run's output is what the
      body returns after exactly those results. */
  ghost predicate Faithful(body: Body, r: Run) {
    exists vals :: Recorded(r.ledger, vals) && OutputDetermined(body, r, vals)
  }

  ghost predicate OutputDetermined(body: Body, r: Run, vals: seq<Value>) {
    r.status.Completed? ==> r.output.Some? && body(1, Vals(vals)) == Return(r.output.value)
  }

  lemma FreshRefines(code: Code, run: Run, mayDrift: bool)
    requires Fresh(run)
    ensures Refines(code, Initial(run), [], mayDrift)
  {
  }

  /** The same for a body that may read ctx.run.attempt: the output is what the body returns in the
      attempt that completed, on the first of the recorded results. */
  ghost predicate FaithfulToLast(body: Body, r: Run) {
    exists vals :: Recorded(r.ledger, vals) && OutputEvaluated(body, r, vals)
  }

  ghost predicate OutputEvaluated(body: Body, r: Run, vals: seq<Value>) {
    r.status.Completed? ==> r.output.Some? && Evaluated(body, r.attempt, vals, r.output.value)
  }

  lemma ReplayRefinesTheLastAttempt(code: Code, run: Run, es: seq<Event>)
    requires Fresh(run) && GivesUp(code.body, true)
    ensures FaithfulToLast(code.body, History(code, Initial(run), es).run)
  {
    FreshRefines(code, run, true);
    var vals := HistoryRefines(code, Initial(run), es, [], true);
    assert OutputEvaluated(code.body, History(code, Initial(run), es).run, vals);
  }

  lemma FaithfulInFirst(body: Body, r: Run)
    requires r.attempt == 1 && Faithful(body, r)
    ensures FaithfulToLast(body, r)
  {
    var vals :| Recorded(r.ledger, vals) && OutputDetermined(body, r, vals);
    assert vals[..|vals|] == vals;
    if r.status.Completed? { assert EvaluatedAt(body, 1, vals, |vals|, r.output.value); }
    assert OutputEvaluated(body, r, vals);
  }

  /** If it does not, the output is what one uninterrupted execution returns. */
  lemma ReplayRefinesOneExecution(code: Code, run: Run, es: seq<Event>)
    requires Fresh(run) && AttemptBlind(code.body) && GivesUp(code.body, false)
    ensures Faithful(code.body, History(code, Initial(run), es).run)
  {
    FreshRefines(code, run, false);
    var vals := HistoryRefines(code, Initial(run), es, [], false);
    var r := History(code, Initial(run), es).run;
    if r.status.Completed? {
      var m: nat :| EvaluatedAt(code.body, r.attempt, vals, m, r.output.value);
      assert m == |vals|;
      assert vals[..m] == vals;
      assert code.body(1, Vals(vals)) == code.body(r.attempt, Vals(vals));
    }
    assert OutputDetermined(code.body, r, vals);
  }

  /* ---- building histories ---- */

  ghost predicate Reaches(code: Code, w: World, w': World) {
    exists es :: History(code, w, es) == w'
  }

  lemma ReachesSelf(code: Code, w: World)
    ensures Reaches(code, w, w)
  {
    assert History(code, w, []) == w;
  }

  lemma ReachesNext(code: Code, w0: World, w: World, e: Event)
    requires Reaches(code, w0, w) && Enabled(w, e)
    ensures Reaches(code, w0, Next(code, w, e))
  {
    var es :| History(code, w0, es) == w;
    HistoryConcat(code, w0, es, [e]);
    HistoryCons(code, w, e, []);
    assert [e] + [] == [e];
    assert History(code, w0, es + [e]) == Next(code, w, e);
  }

  /** A pass that holds the claim, untouched by signals, whose body is about to move. */
  ghost predicate Poised(w: World, k: nat) {
    && Consistent(w.run) && k in w.passes
    && var p := w.passes[k];
    && p.token == k && Holds(w, p) && p.phase.BodyTurn? && p.reply.None?
    && p.endSignal.None? && !p.abandoned && !p.canceled && p.abortReason.None?
  }

  ghost predicate SameCompleted(l: Ledger, l': Ledger) {
    && (forall n: nat :: CompletedAt(l, n) <==> CompletedAt(l', n))
    && (forall n: nat :: CompletedAt(l, n) ==> n in l' && l'[n] == l[n])
  }

  function Storable(v: Value): Circumstance { Circumstance(true, true, v) }
  function Unstorable(): Circumstance { Circumstance(false, true, NULL) }

  /** The pass's next call is new: no row is completed at its position. */
  ghost predicate AtNewCall(code: Code, w: World, k: nat) {
    && Poised(w, k)
    && var p := w.passes[k];
    && code.body(p.attempt, p.responses).Call?
    && !CompletedAt(p.snapshot, p.pos) && !CompletedAt(w.run.ledger, p.pos)
  }

  /** After the call's turn: the write is out, or the fn is running and then reports v. */
  lemma IssueCall(code: Code, w0: World, w: World, k: nat, v: Value) returns (w': World)
    requires Reaches(code, w0, w) && AtNewCall(code, w, k)
    requires code.body(w.passes[k].attempt, w.passes[k].responses).prim.input.Json?
    ensures Reaches(code, w0, w') && w'.run == w.run && k in w'.passes
    ensures var p, q := w.passes[k], w'.passes[k]; var prim := code.body(p.attempt, p.responses).prim;
      && q == p.(pos := p.pos + 1, phase := q.phase, issued := q.issued)
      && q.phase.Calling? && Executes(code, Call(prim), q.phase) && PrimitiveWrite(q.phase.req) && WritePos(q.phase.req) == p.pos
      && Matches(q.phase.req, q.phase.cont)
      && (q.phase.req.ReportStep? ==> q.phase.req.completed && q.phase.req.output == v)
  {
    var p := w.passes[k];
    var prim := code.body(p.attempt, p.responses).prim;
    w' := Next(code, w, Turn(k, v));
    ReachesNext(code, w0, w, Turn(k, v));
    if prim.kind.Step? {
      var w1 := w';
      w' := Next(code, w1, FnSettles(k, FnReturned(v)));
      ReachesNext(code, w0, w1, FnSettles(k, FnReturned(v)));
    }
  }

  /** The call completes its row. The claim is handed back, or the wait it became is resumed. */
  lemma CompleteCall(code: Code, w0: World, w: World, k: nat, v: Value) returns (w': World)
    requires Reaches(code, w0, w) && AtNewCall(code, w, k)
    requires AsksStorable(code.body(w.passes[k].attempt, w.passes[k].responses), v)
    ensures Reaches(code, w0, w') && Consistent(w'.run) && Claimable(w'.run) && w'.run.attempt == w.run.attempt
    ensures var p := w.passes[k]; var prim := code.body(p.attempt, p.responses).prim;
      w'.run.ledger == w.run.ledger[p.pos := Row(prim.kind, LedgerName(prim), Some(DigestOf(prim, code.version)), true, v, k)]
  {
    var p := w.passes[k];
    var w1 := IssueCall(code, w0, w, k, v);
    var w2 := Next(code, w1, Commits(k, Storable(v)));
    ReachesNext(code, w0, w1, Commits(k, Storable(v)));
    NextAdvances(code, w1, Commits(k, Storable(v)));
    if w2.run.status.Waiting? {
      w' := Next(code, w2, Other(Fencing.ResumeWait(v)));
      ReachesNext(code, w0, w2, Other(Fencing.ResumeWait(v)));
      NextAdvances(code, w2, Other(Fencing.ResumeWait(v)));
    } else {
      w' := Next(code, w2, Other(Fencing.ReleaseClaims(p.worker)));
      ReachesNext(code, w0, w2, Other(Fencing.ReleaseClaims(p.worker)));
      NextAdvances(code, w2, Other(Fencing.ReleaseClaims(p.worker)));
    }
  }

  /** The call fails with any error it can throw, and the body is told. */
  lemma FailCall(code: Code, w0: World, w: World, k: nat, err: Thrown) returns (w': World)
    requires Reaches(code, w0, w) && AtNewCall(code, w, k)
    requires CanThrow(code.body(w.passes[k].attempt, w.passes[k].responses).prim, err, false)
    ensures Reaches(code, w0, w') && Poised(w', k) && SameCompleted(w.run.ledger, w'.run.ledger)
    ensures w'.run.attempt == w.run.attempt
    ensures var p, q := w.passes[k], w'.passes[k];
      q == p.(pos := p.pos + 1, responses := p.responses + [Threw(err)], issued := q.issued)
  {
    var p := w.passes[k];
    if code.body(p.attempt, p.responses).prim.input.NotSerializable? {
      w' := Next(code, w, Turn(k, NULL));
      ReachesNext(code, w0, w, Turn(k, NULL));
    } else {
      var w1 := IssueCall(code, w0, w, k, NULL);
      w' := FailIssued(code, w0, w1, k, err);
    }
  }

  /** A primitive's write is outstanding, in a pass that no signal has touched. */
  predicate Unanswered(p: Pass) {
    && p.phase.Calling? && p.reply.None? && PrimitiveWrite(p.phase.req) && Matches(p.phase.req, p.phase.cont)
    && p.endSignal.None? && !p.abandoned && (p.phase.req.ReportStep? ==> p.phase.req.completed)
  }

  /** The write of the call is lost, or refused because its value cannot be stored. */
  lemma FailIssued(code: Code, w0: World, w: World, k: nat, err: Thrown) returns (w': World)
    requires Reaches(code, w0, w) && k in w.passes && Consistent(w.run) && Holds(w, w.passes[k])
    requires Unanswered(w.passes[k]) && !CompletedAt(w.run.ledger, WritePos(w.passes[k].phase.req))
    requires err.Lost? || (err.Abort? && !w.passes[k].phase.req.SuspendRun?)
    ensures Reaches(code, w0, w') && Consistent(w'.run) && Holds(w', w.passes[k]) && SameCompleted(w.run.ledger, w'.run.ledger)
    ensures w'.run.attempt == w.run.attempt
    ensures k in w'.passes && w'.passes[k] == Respond(w.passes[k], Threw(err))
  {
    var e := if err.Lost? then RequestLost(k) else Commits(k, Unstorable());
    var w1 := Next(code, w, e);
    ReachesNext(code, w0, w, e);
    NextAdvances(code, w, e);
    w' := Next(code, w1, Delivered(k));
    ReachesNext(code, w0, w1, Delivered(k));
  }

  /* ---- reaching any live results, and any failing past ---- */

  /** The run is claimable and its ledger holds exactly these results, asked for by the body. */
  ghost predicate Ready(code: Code, w: World, vals: seq<Value>) {
    && Consistent(w.run) && Claimable(w.run)
    && Recorded(w.run.ledger, vals) && RowsAsked(code, w.run.ledger, vals)
  }

  /** A pass that has replayed the first j results. */
  ghost predicate Replayed(code: Code, w: World, k: nat, vals: seq<Value>, j: nat) {
    && Poised(w, k) && j <= |vals|
    && Recorded(w.run.ledger, vals) && RowsAsked(code, w.run.ledger, vals)
    && w.passes[k].snapshot == w.run.ledger
    && w.passes[k].responses == Vals(vals[..j]) && w.passes[k].pos == j
  }

  lemma ReplayOne(code: Code, w0: World, w: World, k: nat, vals: seq<Value>, j: nat) returns (w': World)
    requires Reaches(code, w0, w) && Replayed(code, w, k, vals, j) && j < |vals|
    requires AttemptBlind(code.body) && Live(code.body, 1, vals)
    ensures Reaches(code, w0, w') && Replayed(code, w', k, vals, j + 1) && w'.run == w.run
  {
    var p := w.passes[k];
    var row := w.run.ledger[j];
    assert CompletedAt(w.run.ledger, j);
    var a: nat :| AskedFor(code.body(a, Vals(vals[..j])), row.kind, row.name, row.fingerprint, code.version);
    assert code.body(a, Vals(vals[..j])) == code.body(p.attempt, p.responses);
    w' := Next(code, w, Turn(k, NULL));
    ReachesNext(code, w0, w, Turn(k, NULL));
    assert vals[..j + 1] == vals[..j] + [vals[j]];
    ValsExtend(vals[..j], vals[j]);
  }

  lemma {:induction false} ReplayAll(code: Code, w0: World, w: World, k: nat, vals: seq<Value>, j: nat) returns (w': World)
    requires Reaches(code, w0, w) && Replayed(code, w, k, vals, j)
    requires AttemptBlind(code.body) && Live(code.body, 1, vals)
    ensures Reaches(code, w0, w') && Replayed(code, w', k, vals, |vals|) && w'.run == w.run
    decreases |vals| - j
  {
    w' := w;
    if j < |vals| {
      w' := ReplayOne(code, w0, w, k, vals, j);
      w' := ReplayAll(code, w0, w', k, vals, j + 1);
    }
  }

  /** A new claim replays everything recorded. */
  lemma ClaimAndReplay(code: Code, w0: World, w: World, vals: seq<Value>) returns (w': World, k: nat)
    requires Reaches(code, w0, w) && Ready(code, w, vals)
    requires AttemptBlind(code.body) && Live(code.body, 1, vals)
    ensures Reaches(code, w0, w') && Replayed(code, w', k, vals, |vals|) && w'.run.attempt == w.run.attempt
  {
    var e := Claimed(0, Fit);
    w' := Next(code, w, e);
    k := w'.run.token;
    ReachesNext(code, w0, w, e);
    NextAdvances(code, w, e);
    assert vals[..0] == [] && Vals([]) == [];
    w' := ReplayAll(code, w0, w', k, vals, 0);
  }

  lemma LivePrefix(body: Body, a: nat, vals: seq<Value>, m: nat)
    requires Live(body, a, vals) && m <= |vals|
    ensures Live(body, a, vals[..m])
  {
    forall i | 0 <= i < m
      ensures AsksStorable(body(a, Vals(vals[..m][..i])), vals[..m][i])
    {
      assert vals[..m][..i] == vals[..i];
    }
  }

  /** Any results the body gets past can be recorded. */
  lemma {:induction false} Record(code: Code, run: Run, vals: seq<Value>) returns (w: World)
    requires Fresh(run) && AttemptBlind(code.body) && Live(code.body, 1, vals)
    ensures Reaches(code, Initial(run), w) && Ready(code, w, vals) && w.run.attempt == 1
    decreases |vals|
  {
    if vals == [] {
      w := Initial(run);
      ReachesSelf(code, w);
    } else {
      var m := |vals| - 1;
      LivePrefix(code.body, 1, vals, m);
      var w1 := Record(code, run, vals[..m]);
      var w2, k := ClaimAndReplay(code, Initial(run), w1, vals[..m]);
      var p := w2.passes[k];
      assert vals[..m][..m] == vals[..m];
      assert code.body(p.attempt, p.responses) == code.body(1, Vals(vals[..m]));
      w := CompleteCall(code, Initial(run), w2, k, vals[m]);
      var prim := code.body(p.attempt, p.responses).prim;
      var row := w.run.ledger[m];
      assert AskedFor(code.body(1, Vals(vals[..m])), row.kind, row.name, row.fingerprint, code.version);
      RowsExtend(code, w2.run.ledger, w.run.ledger, vals[..m]);
      assert vals == vals[..m] + [vals[m]];
    }
  }

  /** A pass whose body has met these responses: recorded results, then only failures. */
  ghost predicate Failed(code: Code, w: World, k: nat, past: seq<Response>, vals: seq<Value>) {
    && Poised(w, k) && w.run.attempt == 1
    && w.passes[k].responses == past && w.passes[k].pos == |past| > |vals|
    && Recorded(w.run.ledger, vals)
    && Live(code.body, 1, vals) && code.body(1, Vals(vals)).Call?
    && (forall n: nat :: CompletedAt(w.passes[k].snapshot, n) ==> n < |vals|)
  }

  /** The recorded results are replayed, and then the first failure is met. */
  lemma FirstFailing(code: Code, run: Run, vals: seq<Value>, err: Thrown) returns (w: World, k: nat)
    requires Fresh(run) && AttemptBlind(code.body) && Live(code.body, 1, vals)
    requires code.body(1, Vals(vals)).Call? && CanThrow(code.body(1, Vals(vals)).prim, err, false)
    ensures Reaches(code, Initial(run), w) && Failed(code, w, k, Vals(vals) + [Threw(err)], vals)
  {
    var w0 := Record(code, run, vals);
    var w1;
    w1, k := ClaimAndReplay(code, Initial(run), w0, vals);
    assert vals[..|vals|] == vals;
    assert code.body(w1.passes[k].attempt, w1.passes[k].responses) == code.body(1, Vals(vals));
    w := FailCall(code, Initial(run), w1, k, err);
    assert Recorded(w.run.ledger, vals);
  }

  lemma {:induction false} ReachFailing(code: Code, run: Run, past: seq<Response>) returns (w: World, k: nat, vals: seq<Value>)
    requires Fresh(run) && AttemptBlind(code.body) && Failing(code.body, 1, past, false)
    ensures Reaches(code, Initial(run), w) && Failed(code, w, k, past, vals)
    decreases |past|
  {
    var before := past[..|past| - 1];
    var err := past[|past| - 1].err;
    assert past == before + [Threw(err)];
    if us :| before == Vals(us) && Live(code.body, 1, us) {
      vals := us;
      w, k := FirstFailing(code, run, us, err);
    } else {
      var w1;
      w1, k, vals := ReachFailing(code, run, before);
      assert code.body(w1.passes[k].attempt, before) == code.body(1, before);
      w := FailCall(code, Initial(run), w1, k, err);
      assert Recorded(w.run.ledger, vals);
    }
  }

  /** A body that returns after a failed primitive: the output is not determined. */
  lemma ReturnsAfterFailure(code: Code, run: Run, w: World, k: nat, past: seq<Response>, vals: seq<Value>) returns (w': World)
    requires Reaches(code, Initial(run), w) && Failed(code, w, k, past, vals)
    requires AttemptBlind(code.body) && code.body(1, past).Return?
    ensures Reaches(code, Initial(run), w') && !FaithfulToLast(code.body, w'.run) && w'.run.attempt == 1
  {
    var p := w.passes[k];
    assert code.body(p.attempt, past) == code.body(1, past);
    var w1 := Next(code, w, Turn(k, NULL));
    ReachesNext(code, Initial(run), w, Turn(k, NULL));
    w' := Next(code, w1, Commits(k, Storable(NULL)));
    ReachesNext(code, Initial(run), w1, Commits(k, Storable(NULL)));
    forall us | Recorded(w'.run.ledger, us) ensures !OutputEvaluated(code.body, w'.run, us) {
      RecordedUnique(w'.run.ledger, us, vals);
      NothingReturned(code.body, vals, w'.run.output.value);
    }
  }

  lemma NothingReturned(body: Body, vals: seq<Value>, output: Value)
    requires Live(body, 1, vals) && body(1, Vals(vals)).Call?
    ensures !Evaluated(body, 1, vals, output)
  {
    forall m: nat ensures !EvaluatedAt(body, 1, vals, m, output) {
      if m < |vals| {
        assert AsksStorable(body(1, Vals(vals[..m])), vals[m]);
      } else if m == |vals| {
        assert vals[..m] == vals;
      }
    }
  }

  lemma RecordedUnique(ledger: Ledger, us: seq<Value>, vals: seq<Value>)
    requires Recorded(ledger, us) && Recorded(ledger, vals)
    ensures us == vals
  {
    assert !CompletedAt(ledger, |us|) && !CompletedAt(ledger, |vals|);
  }

  /** A body that goes on to another primitive: its row lands behind a gap. */
  lemma CallsAfterFailure(code: Code, run: Run, w: World, k: nat, past: seq<Response>, vals: seq<Value>) returns (w': World)
    requires Reaches(code, Initial(run), w) && Failed(code, w, k, past, vals)
    requires AttemptBlind(code.body) && code.body(1, past).Call? && code.body(1, past).prim.input.Json?
    ensures Reaches(code, Initial(run), w') && !FaithfulToLast(code.body, w'.run) && w'.run.attempt == 1
  {
    var p := w.passes[k];
    assert code.body(p.attempt, past) == code.body(1, past);
    w' := CompleteCall(code, Initial(run), w, k, NULL);
    assert !CompletedAt(w.run.ledger, |vals|) && p.pos == |past|;
    assert !CompletedAt(w'.run.ledger, |vals|) && CompletedAt(w'.run.ledger, |past|);
    forall us ensures !Recorded(w'.run.ledger, us) {}
  }

  /** For a body that does not give up, a history within its first attempt. */
  lemma UnfaithfulHistory(code: Code, run: Run) returns (es: seq<Event>)
    requires Fresh(run) && AttemptBlind(code.body) && !GivesUp(code.body, false)
    ensures var r := History(code, Initial(run), es).run;
      !Faithful(code.body, r) && !FaithfulToLast(code.body, r) && r.attempt == 1
  {
    var a: nat, past :| Failing(code.body, a, past, false) && !Quits(code.body(a, past));
    FailingBlind(code.body, a, past);
    assert code.body(a, past) == code.body(1, past);
    var w, k, vals := ReachFailing(code, run, past);
    var w': World;
    if code.body(1, past).Return? {
      w' := ReturnsAfterFailure(code, run, w, k, past, vals);
    } else {
      w' := CallsAfterFailure(code, run, w, k, past, vals);
    }
    es :| History(code, Initial(run), es) == w';
    if Faithful(code.body, w'.run) { FaithfulInFirst(code.body, w'.run); }
  }

  lemma {:induction false} FailingBlind(body: Body, a: nat, past: seq<Response>)
    requires AttemptBlind(body) && Failing(body, a, past, false)
    ensures Failing(body, 1, past, false)
    decreases |past|
  {
    var before := past[..|past| - 1];
    assert body(a, before) == body(1, before);
    if us :| before == Vals(us) && Live(body, a, us) {
      forall i | 0 <= i < |us| ensures AsksStorable(body(1, Vals(us[..i])), us[i]) {
        assert body(a, Vals(us[..i])) == body(1, Vals(us[..i]));
      }
    } else {
      FailingBlind(body, a, before);
    }
  }

  /** Replay is faithful in every history if and only if the body gives up after a primitive
      that failed: it may swallow every control-flow signal, but no other failure. */
  lemma FaithfulExactlyIfGivesUp(code: Code, run: Run)
    requires Fresh(run) && AttemptBlind(code.body)
    ensures GivesUp(code.body, false) <==> forall es :: Faithful(code.body, History(code, Initial(run), es).run)
  {
    if GivesUp(code.body, false) {
      forall es ensures Faithful(code.body, History(code, Initial(run), es).run) {
        ReplayRefinesOneExecution(code, run, es);
      }
    } else {
      var es := UnfaithfulHistory(code, run);
    }
  }

  /* ---- bodies that read the attempt number ---- */

  /** The body as it is in its first attempt. */
  function AtFirst(code: Code): Code {
    code.(body := (attempt: nat, past: seq<Response>) => code.body(1, past))
  }

  /** The run and all its passes are in their first attempt. */
  ghost predicate First(w: World) {
    w.run.attempt == 1 && forall k :: k in w.passes ==> w.passes[k].attempt == 1
  }

  lemma NextInFirst(code: Code, w: World, e: Event)
    requires First(w) && Enabled(w, e)
    ensures Next(AtFirst(code), w, e) == Next(code, w, e)
  {
    if e.Turn? { assert w.passes[e.token].attempt == 1; }
  }

  lemma {:induction false} AttemptsRise(code: Code, w: World, es: seq<Event>)
    requires Consistent(w.run)
    ensures Consistent(History(code, w, es).run) && w.run.attempt <= History(code, w, es).run.attempt
    decreases es
  {
    if es != [] {
      if Enabled(w, es[0]) { NextAdvances(code, w, es[0]); }
      AttemptsRise(code, if Enabled(w, es[0]) then Next(code, w, es[0]) else w, es[1..]);
    }
  }

  lemma FirstStays(code: Code, w: World, e: Event)
    requires First(w) && Enabled(w, e) && Next(code, w, e).run.attempt == 1
    ensures First(Next(code, w, e))
  {
    forall k | k in Next(code, w, e).passes ensures Next(code, w, e).passes[k].attempt == 1 {
      PassesPersist(code, w, e, k);
    }
  }

  /** As long as no second attempt begins, the body is as good as the one of its first. */
  lemma {:induction false} HistoryInFirst(code: Code, w: World, es: seq<Event>)
    requires Consistent(w.run) && First(w) && History(AtFirst(code), w, es).run.attempt == 1
    ensures History(AtFirst(code), w, es) == History(code, w, es)
    decreases es
  {
    if es != [] {
      var w1 := if Enabled(w, es[0]) then Next(AtFirst(code), w, es[0]) else w;
      if Enabled(w, es[0]) {
        NextInFirst(code, w, es[0]);
        NextAdvances(AtFirst(code), w, es[0]);
        AttemptsRise(AtFirst(code), w1, es[1..]);
        FirstStays(AtFirst(code), w, es[0]);
      }
      HistoryInFirst(code, w1, es[1..]);
    }
  }

  /** Whatever body it is: if replay is faithful in every history, the body gives up after a failed
      primitive in its first attempt. */
  lemma FaithfulNeedsGivingUp(code: Code, run: Run)
    requires Fresh(run) && forall es :: FaithfulToLast(code.body, History(code, Initial(run), es).run)
    ensures GivesUp(AtFirst(code).body, false)
  {
    if !GivesUp(AtFirst(code).body, false) {
      var es := UnfaithfulHistory(AtFirst(code), run);
      HistoryInFirst(code, Initial(run), es);
      var r := History(code, Initial(run), es).run;
      SameInFirst(code, r);
      assert false;
    }
  }

  lemma SameInFirst(code: Code, r: Run)
    requires r.attempt == 1
    ensures FaithfulToLast(code.body, r) <==> FaithfulToLast(AtFirst(code).body, r)
  {
    forall vals ensures OutputEvaluated(code.body, r, vals) <==> OutputEvaluated(AtFirst(code).body, r, vals) {
      forall m: nat, output ensures EvaluatedAt(code.body, 1, vals, m, output) <==> EvaluatedAt(AtFirst(code).body, 1, vals, m, output) {}
    }
  }

  /** A failure reported with this policy is the run's last. */
  predicate LastFailure(abort: bool, retry: Retry, maxAttempts: nat) {
    abort || (if retry.Policy? && retry.maxAttempts.Some? then retry.maxAttempts.value else maxAttempts) <= 1
  }

  /** Neither the run, nor the task, nor any step of its body asks for a second attempt. */
  ghost predicate NeverRetries(code: Code, run: Run) {
    && LastFailure(false, NoPolicy, run.maxAttempts) && LastFailure(false, code.retry, run.maxAttempts)
    && forall a: nat, past :: code.body(a, past).Call? ==> LastFailure(false, code.body(a, past).prim.retry, run.maxAttempts)
  }

  predicate OnlyLastFailures(p: Pass, maxAttempts: nat) {
    && (p.phase.InFn? ==> LastFailure(false, p.phase.prim.retry, maxAttempts))
    && (p.phase.Calling? && p.phase.req.FailRun? ==> LastFailure(p.phase.req.abort, p.phase.req.retry, maxAttempts))
    && (p.phase.Calling? && p.phase.cont.StepFailureReported? ==> LastFailure(p.phase.cont.abort, p.phase.cont.retry, maxAttempts))
  }

  ghost predicate Retryless(w: World, maxAttempts: nat) {
    && Consistent(w.run) && First(w) && w.run.maxAttempts == maxAttempts
    && (forall k :: k in w.passes ==> OnlyLastFailures(w.passes[k], maxAttempts))
    && (forall l :: l in w.late && l.req.FailRun? ==> LastFailure(l.req.abort, l.req.retry, maxAttempts))
  }

  lemma CommitRetryless(r: Run, worker: nat, token: nat, req: Request, c: Circumstance)
    requires r.attempt == 1 && (req.FailRun? ==> LastFailure(req.abort, req.retry, r.maxAttempts))
    ensures var r' := Commit(r, worker, token, req, c).run; r'.attempt == 1 && r'.maxAttempts == r.maxAttempts
  {
  }

  lemma CallRetryless(code: Code, p: Pass, prim: Primitive, now: Value, maxAttempts: nat)
    requires p.phase.BodyTurn? && LastFailure(false, prim.retry, maxAttempts)
    ensures OnlyLastFailures(CallPrimitive(code, p, prim, now), maxAttempts)
  {
  }

  lemma TurnRetryless(code: Code, p: Pass, now: Value, run: Run)
    requires p.phase.BodyTurn? && NeverRetries(code, run)
    ensures OnlyLastFailures(TakeTurn(code, p, now), run.maxAttempts)
  {
    var action := code.body(p.attempt, p.responses);
    if action.Call? { CallRetryless(code, p, action.prim, now, run.maxAttempts); }
  }

  lemma FnRetryless(code: Code, p: Pass, outcome: FnOutcome, run: Run)
    requires p.phase.InFn? && NeverRetries(code, run) && OnlyLastFailures(p, run.maxAttempts)
    ensures OnlyLastFailures(FnSettled(code, p, outcome), run.maxAttempts)
  {
  }

  lemma DeliveryRetryless(p: Pass, maxAttempts: nat)
    requires p.phase.Calling? && p.reply.Some? && OnlyLastFailures(p, maxAttempts)
    ensures OnlyLastFailures(Deliver(p), maxAttempts)
  {
  }

  lemma MovesRetryless(code: Code, w: World, e: Event, k: nat)
    requires Retryless(w, w.run.maxAttempts) && NeverRetries(code, w.run) && Enabled(w, e) && Addresses(e, k)
    ensures OnlyLastFailures(Next(code, w, e).passes[k], w.run.maxAttempts)
  {
    var p := w.passes[k];
    assert OnlyLastFailures(p, w.run.maxAttempts);
    if e.Turn? {
      TurnRetryless(code, p, e.now, w.run);
    } else if e.FnSettles? {
      FnRetryless(code, p, e.outcome, w.run);
    } else if e.Delivered? {
      DeliveryRetryless(p, w.run.maxAttempts);
    }
  }

  lemma NextRetryless(code: Code, w: World, e: Event, maxAttempts: nat)
    requires Retryless(w, maxAttempts) && NeverRetries(code, w.run) && Enabled(w, e)
    ensures Retryless(Next(code, w, e), maxAttempts) && NeverRetries(code, Next(code, w, e).run)
  {
    var w' := Next(code, w, e);
    NextAdvances(code, w, e);
    if e.Commits? {
      var p := w.passes[e.token];
      assert OnlyLastFailures(p, maxAttempts);
      CommitRetryless(w.run, p.worker, p.token, p.phase.req, e.found);
    } else if e.Arrives? {
      CommitRetryless(w.run, e.write.worker, e.write.token, e.write.req, e.found);
    }
    FirstStays(code, w, e);
    forall k | k in w'.passes ensures OnlyLastFailures(w'.passes[k], maxAttempts) {
      PassesPersist(code, w, e, k);
      if Addresses(e, k) { MovesRetryless(code, w, e, k); }
    }
    if e.RequestLost? { assert OnlyLastFailures(w.passes[e.token], maxAttempts); }
  }

  lemma {:induction false} HistoryRetryless(code: Code, w: World, es: seq<Event>, maxAttempts: nat)
    requires Retryless(w, maxAttempts) && NeverRetries(code, w.run)
    ensures Retryless(History(code, w, es), maxAttempts)
    decreases es
  {
    if es != [] {
      if Enabled(w, es[0]) { NextRetryless(code, w, es[0], maxAttempts); }
      HistoryRetryless(code, if Enabled(w, es[0]) then Next(code, w, es[0]) else w, es[1..], maxAttempts);
    }
  }

  lemma NeverRetriesInFirst(code: Code, run: Run)
    requires NeverRetries(code, run)
    ensures NeverRetries(AtFirst(code), run)
  {
    forall a: nat, past | AtFirst(code).body(a, past).Call?
      ensures LastFailure(false, AtFirst(code).body(a, past).prim.retry, run.maxAttempts)
    {
      assert code.body(1, past).Call?;
    }
  }

  lemma SameHistory(code: Code, run: Run, es: seq<Event>)
    requires Fresh(run) && NeverRetries(code, run)
    ensures History(code, Initial(run), es) == History(AtFirst(code), Initial(run), es)
    ensures var r := History(code, Initial(run), es).run; Faithful(code.body, r) <==> Faithful(AtFirst(code).body, r)
  {
    NeverRetriesInFirst(code, run);
    HistoryRetryless(AtFirst(code), Initial(run), es, run.maxAttempts);
    HistoryInFirst(code, Initial(run), es);
    forall r: Run, vals ensures OutputDetermined(code.body, r, vals) <==> OutputDetermined(AtFirst(code).body, r, vals) {}
  }

  /** For a run that is never retried, whatever its body reads: replay is faithful in every history
      if and only if the body gives up after a failed primitive in its first attempt. */
  lemma FaithfulExactlyIfFirstGivesUp(code: Code, run: Run)
    requires Fresh(run) && NeverRetries(code, run)
    ensures GivesUp(AtFirst(code).body, false) <==> forall es :: Faithful(code.body, History(code, Initial(run), es).run)
  {
    if GivesUp(AtFirst(code).body, false) {
      forall es ensures Faithful(code.body, History(code, Initial(run), es).run) {
        ReplayRefinesOneExecution(AtFirst(code), run, es);
        SameHistory(code, run, es);
      }
    } else {
      var es := UnfaithfulHistory(AtFirst(code), run);
      SameHistory(code, run, es);
    }
  }

  /* ---- a body that does not give up ---- */

  /** One claim; the step runs and its report is lost; the body goes on and its return commits. */
  const LOST_REPORT: seq<Event> :=
    [Claimed(1, Fit), Turn(1, NULL), FnSettles(1, FnReturned(7)), RequestLost(1), Delivered(1),
     Turn(1, NULL), Commits(1, Circumstance(true, false, NULL))]

  /** The report the first claim sends. */
  function TheReport(): Request {
    ReportStep(0, Step, Some("s"), DigestOf(ReplayEffects.TheStep(), None), true, 7)
  }

  lemma SendTheReport(run: Run) returns (w: World)
    requires Fresh(run)
    ensures History(ReplayEffects.OneStep(), Initial(run), LOST_REPORT) == History(ReplayEffects.OneStep(), w, LOST_REPORT[3..])
    ensures w.run == Claim(run, 1) && w.calls == [FnCall(1, 0)] && 1 in w.passes
    ensures w.passes[1] == Pass(1, 1, 1, map[], 1, [], Calling(TheReport(), StepReported(7)), None, None, false, false, None, [TheReport()])
  {
    var code := ReplayEffects.OneStep();
    var w0 := Initial(run);
    var w1 := Next(code, w0, LOST_REPORT[0]);
    assert w1.passes[1] == Pass(1, 1, 1, map[], 0, [], BodyTurn, None, None, false, false, None, []);
    var w2 := Next(code, w1, LOST_REPORT[1]);
    assert w2.passes[1].phase == InFn(0, ReplayEffects.TheStep(), DigestOf(ReplayEffects.TheStep(), None));
    w := Next(code, w2, LOST_REPORT[2]);
    HistoryStep(code, w0, LOST_REPORT);
    HistoryStep(code, w1, LOST_REPORT[1..]);
    HistoryStep(code, w2, LOST_REPORT[2..]);
  }

  lemma LoseTheReport(w: World) returns (w': World)
    requires 1 in w.passes
    requires w.passes[1] == Pass(1, 1, 1, map[], 1, [], Calling(TheReport(), StepReported(7)), None, None, false, false, None, [TheReport()])
    ensures History(ReplayEffects.OneStep(), w, LOST_REPORT[3..]) == History(ReplayEffects.OneStep(), w', LOST_REPORT[5..])
    ensures w'.run == w.run && w'.calls == w.calls && 1 in w'.passes
    ensures w'.passes[1] == Pass(1, 1, 1, map[], 1, [Threw(Lost)], BodyTurn, None, None, false, false, None, [TheReport()])
  {
    var code := ReplayEffects.OneStep();
    var w1 := Next(code, w, LOST_REPORT[3]);
    w' := Next(code, w1, LOST_REPORT[4]);
    HistoryStep(code, w, LOST_REPORT[3..]);
    HistoryStep(code, w1, LOST_REPORT[4..]);
  }

  /** The body of one step that returns whatever its step did is not faithful: the report of the
      step is lost, the error swallowed, and the run completes with an empty ledger. */
  lemma SwallowedErrorLosesTheStep(run: Run)
    requires Fresh(run)
    ensures var code := ReplayEffects.OneStep(); var w := History(code, Initial(run), LOST_REPORT);
      && w.calls == [FnCall(1, 0)]
      && w.run.status.Completed? && w.run.output == Some(NULL) && w.run.ledger == map[]
      && !Faithful(code.body, w.run)
  {
    var code := ReplayEffects.OneStep();
    var w3 := SendTheReport(run);
    var w5 := LoseTheReport(w3);
    var w6 := Next(code, w5, LOST_REPORT[5]);
    var w7 := Next(code, w6, LOST_REPORT[6]);
    HistoryStep(code, w5, LOST_REPORT[5..]);
    HistoryStep(code, w6, LOST_REPORT[6..]);
    forall vals | Recorded(w7.run.ledger, vals) ensures !OutputDetermined(code.body, w7.run, vals) {
      assert !CompletedAt(w7.run.ledger, 0);
      assert vals == [] && Vals(vals) == [];
    }
  }
}
