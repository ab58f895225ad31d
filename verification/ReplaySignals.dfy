/** Control-flow signals that user code swallows, and what a pass's result means. */
module ReplaySignals {
  import opened Options
  import opened RunLedger
  import opened Replay
  import opened ReplayWorld
  import opened ReplayPasses

  /* ---- after a signal ---- */

  /** From p to q nothing was issued, or one failure report by a pass that had none out. */
  predicate OnlyFailureReport(p: Pass, q: Pass) {
    || q.issued == p.issued
    || (p.phase.BodyTurn? && |q.issued| == |p.issued| + 1 && q.issued[..|p.issued|] == p.issued
        && q.issued[|p.issued|].FailRun? && !q.phase.BodyTurn?)
  }

  predicate Quiet(p: Pass, q: Pass) {
    && p.endSignal.Some? && q.endSignal == p.endSignal
    && OnlyFailureReport(p, q)
    && (!p.phase.BodyTurn? ==> !q.phase.BodyTurn?)
  }

  lemma TurnIsQuiet(code: Code, p: Pass, now: Value)
    requires WellPhased(p) && p.phase.BodyTurn? && p.endSignal.Some?
    ensures Quiet(p, TakeTurn(code, p, now)) && !TakeTurn(code, p, now).phase.InFn?
  {
  }

  lemma NextIsQuiet(code: Code, w: World, e: Event, k: nat)
    requires Ordered(w) && Enabled(w, e) && k in w.passes && w.passes[k].endSignal.Some?
    ensures k in Next(code, w, e).passes && Quiet(w.passes[k], Next(code, w, e).passes[k])
    ensures e.Turn? && e.token == k ==> !Next(code, w, e).passes[k].phase.InFn?
  {
    assert LinkedPass(w.run, k, w.passes[k]);
    if !Addresses(e, k) {
      OthersUntouched(code, w, e, k);
    } else if e.Turn? {
      TurnIsQuiet(code, w.passes[k], e.now);
    }
  }

  /** New fn calls and new accepted writes of the pass since the first of two worlds. */
  ghost predicate NoNewCalls(w: World, w': World, k: nat) {
    w.calls <= w'.calls && forall i :: |w.calls| <= i < |w'.calls| ==> w'.calls[i].token != k
  }

  /** For every body, including one that catches everything: once SuspendSignal or
      ExecutionDone was thrown into it, the pass runs no further fn and issues nothing but at
      most one failure report, whatever else happens. */
  lemma {:induction false} NothingAfterSignal(code: Code, w: World, es: seq<Event>, k: nat)
    requires Ordered(w) && k in w.passes && w.passes[k].endSignal.Some?
    ensures var w' := History(code, w, es);
      && k in w'.passes
      && OnlyFailureReport(w.passes[k], w'.passes[k])
      && NoNewCalls(w, w', k)
      && w'.passes[k].endSignal == w.passes[k].endSignal
    ensures !w.passes[k].phase.BodyTurn? ==> !History(code, w, es).passes[k].phase.BodyTurn?
    decreases es
  {
    if es != [] {
      var w1 := if Enabled(w, es[0]) then Next(code, w, es[0]) else w;
      if Enabled(w, es[0]) {
        NextKeepsOrdered(code, w, es[0]);
        NextIsQuiet(code, w, es[0], k);
      }
      NothingAfterSignal(code, w1, es[1..], k);
    }
  }

  lemma {:induction false} FinishedStays(code: Code, w: World, es: seq<Event>, k: nat)
    requires Ordered(w) && k in w.passes && w.passes[k].phase.Finished?
    ensures var w' := History(code, w, es);
      && k in w'.passes && w'.passes[k].phase == w.passes[k].phase && w'.passes[k].issued == w.passes[k].issued
      && NoNewCalls(w, w', k)
    decreases es
  {
    if es != [] {
      if Enabled(w, es[0]) {
        NextKeepsOrdered(code, w, es[0]);
        assert LinkedPass(w.run, k, w.passes[k]) && WellPhased(w.passes[k]);
        if !Addresses(es[0], k) { OthersUntouched(code, w, es[0], k); }
      }
      FinishedStays(code, if Enabled(w, es[0]) then Next(code, w, es[0]) else w, es[1..], k);
    }
  }

  /** Once a pass has been told that a write of its was rejected, it runs no further fn and issues
      nothing but at most one failure report, whatever its body catches and whatever else happens. */
  lemma NothingAfterRejection(code: Code, w: World, es: seq<Event>, k: nat)
    requires Ordered(w) && Enabled(w, Delivered(k)) && Abandonment(w.passes[k].reply.value)
    ensures var w1 := Next(code, w, Delivered(k)); var w' := History(code, w1, es);
      && k in w'.passes && w1.passes[k].issued == w.passes[k].issued
      && OnlyFailureReport(w1.passes[k], w'.passes[k]) && NoNewCalls(w, w', k)
  {
    var w1 := Next(code, w, Delivered(k));
    NextKeepsOrdered(code, w, Delivered(k));
    RejectionEndsThePass(w.passes[k]);
    if w1.passes[k].phase.Finished? {
      FinishedStays(code, w1, es, k);
    } else {
      NothingAfterSignal(code, w1, es, k);
    }
  }

  /** A rejected write ends the attempt: ExecutionDone is thrown into the body, or the pass is over. */
  lemma RejectionEndsThePass(p: Pass)
    requires WellPhased(p) && p.phase.Calling? && p.reply.Some? && Abandonment(p.reply.value)
    ensures var q := Deliver(p);
      || (q.endSignal == Some(SignalDone) && q.abandoned && q.issued == p.issued)
      || (q.phase.Finished? && q.issued == p.issued && (q.phase.result.Abandons? || q.phase.result.Fails?))
  {
  }

  /* ---- what the result says ---- */

  /** User code never builds a signal: it can only throw one it was given. */
  ghost predicate ForgesNoSignal(body: Body) {
    forall a, past :: body(a, past) == Throw(SuspendSignal) ==> Threw(SuspendSignal) in past
  }

  predicate Suspended(w: World, k: nat) {
    exists i :: 0 <= i < |w.writes| && w.writes[i].token == k && w.writes[i].reply.Suspended?
  }

  lemma SuspensionStays(w: World, w': World, k: nat)
    requires w.writes <= w'.writes
    ensures Suspended(w, k) ==> Suspended(w', k)
  {
    if Suspended(w, k) {
      var i :| 0 <= i < |w.writes| && w.writes[i].token == k && w.writes[i].reply.Suspended?;
      assert w'.writes[i] == w.writes[i];
    }
  }

  ghost predicate SawSuspension(p: Pass) {
    || p.endSignal == Some(SignalSuspend)
    || Threw(SuspendSignal) in p.responses
    || p.phase == Finished(Suspends)
    || p.reply == Some(Reply.Suspended)
  }

  predicate Completing(p: Pass, v: Value) {
    || p.phase == Finished(Completes(v))
    || (p.phase.Calling? && p.phase.cont == RunCompleted(v) && p.reply == Some(Accepted))
  }

  /** A completion of the pass may have been accepted: it knows, or its reply was lost. */
  predicate MayHaveCompleted(p: Pass, v: Value) {
    || p.phase == Finished(Completes(v))
    || p.phase == Finished(Crashes)
    || (p.phase.Calling? && p.phase.cont == RunCompleted(v) && (p.reply == Some(Accepted) || p.reply == Some(Failure)))
  }

  ghost predicate Reported(w: World, k: nat, p: Pass) {
    && (SawSuspension(p) ==> Suspended(w, k))
    && !(p.phase.Calling? && p.phase.cont.ChildAwaited? && p.reply == Some(Accepted))
    && (forall v :: Completing(p, v) ==> AcceptedWrite(k, CompleteRun(v), Accepted) in w.writes)
    && (forall v :: AcceptedWrite(k, CompleteRun(v), Accepted) in w.writes ==>
          MayHaveCompleted(p, v) && w.run.status.Completed? && w.run.output == Some(v))
  }

  ghost predicate ResultsTruthful(w: World) {
    && Ordered(w)
    && (forall k :: k in w.passes ==> Reported(w, k, w.passes[k]))
    && (forall i :: 0 <= i < |w.writes| ==> w.writes[i].token in w.passes)
    && (forall l :: l in w.late ==> LateTruthful(w, l))
  }

  /** The pass of a completion that is still on its way has been told that it failed. */
  predicate LateTruthful(w: World, l: LateWrite) {
    l.req.CompleteRun? ==> l.token in w.passes && ToldFailure(w.passes[l.token], l.req.output)
  }

  predicate ToldFailure(p: Pass, v: Value) {
    p.phase == Finished(Crashes) || (p.phase.Calling? && p.phase.cont == RunCompleted(v) && p.reply == Some(Failure))
  }

  lemma TurnTruthful(code: Code, p: Pass, now: Value)
    requires WellPhased(p) && p.phase.BodyTurn? && ForgesNoSignal(code.body)
    ensures SawSuspension(TakeTurn(code, p, now)) ==> SawSuspension(p)
    ensures forall v :: !MayHaveCompleted(p, v) && !Completing(TakeTurn(code, p, now), v)
    ensures TakeTurn(code, p, now).reply.None?
  {
  }

  lemma FnTruthful(code: Code, p: Pass, outcome: FnOutcome)
    requires WellPhased(p) && p.phase.InFn?
    ensures SawSuspension(FnSettled(code, p, outcome)) ==> SawSuspension(p)
    ensures forall v :: !MayHaveCompleted(p, v) && !Completing(FnSettled(code, p, outcome), v)
    ensures FnSettled(code, p, outcome).reply.None?
  {
  }

  lemma DeliverTruthful(p: Pass)
    requires WellPhased(p) && p.phase.Calling? && p.reply.Some?
    requires !(p.phase.cont.ChildAwaited? && p.reply == Some(Accepted))
    ensures SawSuspension(Deliver(p)) ==> SawSuspension(p)
    ensures forall v :: Completing(Deliver(p), v) ==> Completing(p, v)
    ensures forall v :: MayHaveCompleted(p, v) ==> MayHaveCompleted(Deliver(p), v)
    ensures Deliver(p).reply.None?
  {
  }

  /** A suspension a pass is told of is among the accepted writes, and a child wait is never
      merely accepted. */
  lemma CommitSuspends(code: Code, w: World, k: nat, found: Circumstance)
    requires ResultsTruthful(w) && Enabled(w, Commits(k, found))
    ensures var w' := Next(code, w, Commits(k, found)); var q := w'.passes[k];
      && (SawSuspension(q) ==> Suspended(w', k))
      && !(q.phase.Calling? && q.phase.cont.ChildAwaited? && q.reply == Some(Accepted))
  {
    var p := w.passes[k];
    var w' := Next(code, w, Commits(k, found));
    assert Reported(w, k, p) && LinkedPass(w.run, k, p);
    if Holds(w, p) {
      if p.phase.req.WaitForChildRun? { HolderMisses(w, k); }
      assert w'.writes[|w.writes|] == AcceptedWrite(k, p.phase.req, w'.passes[k].reply.value);
    }
    SuspensionStays(w, w', k);
  }

  /** A committed write is reported to its pass as it was decided. */
  lemma CommitTruthful(code: Code, w: World, k: nat, found: Circumstance)
    requires ResultsTruthful(w) && Enabled(w, Commits(k, found))
    ensures var w' := Next(code, w, Commits(k, found)); Reported(w', k, w'.passes[k])
  {
    var p := w.passes[k];
    var w' := Next(code, w, Commits(k, found));
    CommitSuspends(code, w, k, found);
    assert Reported(w, k, p);
    if Holds(w, p) {
      assert w'.writes[|w.writes|] == AcceptedWrite(k, p.phase.req, w'.passes[k].reply.value);
    } else {
      assert w'.run == w.run && w'.writes == w.writes;
    }
  }

  lemma ReportedStays(w: World, w': World, k: nat, p: Pass)
    requires Reported(w, k, p) && w.writes <= w'.writes && Advances(w.run, w'.run)
    requires forall i :: |w.writes| <= i < |w'.writes| ==> w'.writes[i].token != k
    ensures Reported(w', k, p)
  {
    SuspensionStays(w, w', k);
  }

  /** The pass whose write the event commits. */
  function Writer(e: Event): Option<nat> {
    if e.Commits? then Some(e.token) else if e.Arrives? then Some(e.write.token) else None
  }

  lemma WritesOnlyGrow(code: Code, w: World, e: Event)
    requires Enabled(w, e)
    ensures var w' := Next(code, w, e);
      && w.writes <= w'.writes
      && (forall i :: |w.writes| <= i < |w'.writes| ==> Writer(e) == Some(w'.writes[i].token))
  {
  }

  /** A late write is told to nobody; if it completes the run, its pass has been told otherwise. */
  lemma ArrivalTruthful(code: Code, w: World, l: LateWrite, found: Circumstance)
    requires ResultsTruthful(w) && Enabled(w, Arrives(l, found))
    ensures l.token in w.passes && Reported(Next(code, w, Arrives(l, found)), l.token, w.passes[l.token])
  {
    assert LateBehind(w, l) && LateTruthful(w, l);
    var k := l.token;
    var w' := Next(code, w, Arrives(l, found));
    assert Reported(w, k, w.passes[k]);
    if w'.writes == w.writes {
      assert w'.run == w.run;
    } else {
      var last := w'.writes[|w.writes|];
      assert w'.writes == w.writes + [last] && last.req == l.req && w.run.status.Running?;
      SuspensionStays(w, w', k);
    }
  }

  lemma NewcomerReported(code: Code, w: World, e: Event, k: nat)
    requires ResultsTruthful(w) && Enabled(w, e) && e.Claimed? && k == w.run.token + 1
    ensures Reported(Next(code, w, e), k, Next(code, w, e).passes[k])
  {
    forall i | 0 <= i < |w.writes| ensures w.writes[i].token != k {
      assert LinkedPass(w.run, w.writes[i].token, w.passes[w.writes[i].token]);
    }
  }

  /** What a pass does by itself. */
  lemma MoveTruthful(code: Code, w: World, e: Event, k: nat)
    requires ResultsTruthful(w) && Enabled(w, e) && ForgesNoSignal(code.body) && Addresses(e, k) && !e.Commits?
    ensures Reported(Next(code, w, e), k, Next(code, w, e).passes[k])
  {
    var w', p := Next(code, w, e), w.passes[k];
    assert Reported(w, k, p) && WellPhased(p) && w'.writes == w.writes && w'.run == w.run;
    SuspensionStays(w, w', k);
    if e.Turn? {
      TurnTruthful(code, p, e.now);
    } else if e.FnSettles? {
      FnTruthful(code, p, e.outcome);
    } else if e.Delivered? {
      DeliverTruthful(p);
    }
  }

  lemma NextKeepsReported(code: Code, w: World, e: Event, k: nat)
    requires ResultsTruthful(w) && Enabled(w, e) && ForgesNoSignal(code.body)
    requires k in Next(code, w, e).passes
    ensures Reported(Next(code, w, e), k, Next(code, w, e).passes[k])
  {
    if e.Claimed? && k == w.run.token + 1 {
      NewcomerReported(code, w, e, k);
    } else if e.Commits? && e.token == k {
      CommitTruthful(code, w, k, e.found);
    } else if Addresses(e, k) {
      MoveTruthful(code, w, e, k);
    } else if Writer(e) == Some(k) {
      ArrivalTruthful(code, w, e.write, e.found);
    } else {
      NextAdvances(code, w, e);
      WritesOnlyGrow(code, w, e);
      PassesPersist(code, w, e, k);
      OthersUntouched(code, w, e, k);
      ReportedStays(w, Next(code, w, e), k, w.passes[k]);
    }
  }

  /** A pass told so stays told so. */
  lemma ToldStays(code: Code, w: World, e: Event, k: nat, v: Value)
    requires Ordered(w) && Enabled(w, e) && k in w.passes && ToldFailure(w.passes[k], v)
    ensures k in Next(code, w, e).passes && ToldFailure(Next(code, w, e).passes[k], v)
  {
    assert LinkedPass(w.run, k, w.passes[k]);
    if !Addresses(e, k) { OthersUntouched(code, w, e, k); }
  }

  lemma LateStaysTruthful(code: Code, w: World, e: Event, l: LateWrite)
    requires ResultsTruthful(w) && Enabled(w, e) && l in Next(code, w, e).late
    ensures LateTruthful(Next(code, w, e), l)
  {
    if l in w.late {
      assert LateTruthful(w, l);
      if l.req.CompleteRun? { ToldStays(code, w, e, l.token, l.req.output); }
    } else {
      assert LinkedPass(w.run, e.token, w.passes[e.token]) && WellPhased(w.passes[e.token]);
    }
  }

  lemma NextKeepsResults(code: Code, w: World, e: Event)
    requires ResultsTruthful(w) && Enabled(w, e) && ForgesNoSignal(code.body)
    ensures ResultsTruthful(Next(code, w, e))
  {
    NextKeepsOrdered(code, w, e);
    WritesOnlyGrow(code, w, e);
    if e.Arrives? { assert LateBehind(w, e.write); }
    forall k | k in Next(code, w, e).passes ensures Reported(Next(code, w, e), k, Next(code, w, e).passes[k]) {
      NextKeepsReported(code, w, e, k);
    }
    forall l | l in Next(code, w, e).late ensures LateTruthful(Next(code, w, e), l) {
      LateStaysTruthful(code, w, e, l);
    }
  }

  lemma {:induction false} HistoryKeepsResults(code: Code, w: World, es: seq<Event>)
    requires ResultsTruthful(w) && ForgesNoSignal(code.body)
    ensures ResultsTruthful(History(code, w, es))
    decreases es
  {
    if es != [] {
      if Enabled(w, es[0]) { NextKeepsResults(code, w, es[0]); }
      HistoryKeepsResults(code, if Enabled(w, es[0]) then Next(code, w, es[0]) else w, es[1..]);
    }
  }

  /** A pass reports 'completed' exactly when it learned that its completion was accepted, and
      'suspended' only when a suspension of its own was. An accepted completion that its pass
      does not report was either not answered yet or answered with a failure, in which case the
      executor throws. The completed run's output is that pass's. */
  lemma ResultsMeanWhatTheySay(code: Code, run: Run, es: seq<Event>, k: nat)
    requires Fresh(run) && ForgesNoSignal(code.body)
    requires k in History(code, Initial(run), es).passes
    ensures var w := History(code, Initial(run), es); var p := w.passes[k];
      && (p.phase == Finished(Suspends) ==> Suspended(w, k))
      && (forall v :: p.phase == Finished(Completes(v)) ==>
            AcceptedWrite(k, CompleteRun(v), Accepted) in w.writes && w.run.output == Some(v))
      && (forall v :: AcceptedWrite(k, CompleteRun(v), Accepted) in w.writes && p.phase.Finished? ==>
            p.phase.result == Completes(v) || p.phase.result.Crashes?)
  {
    HistoryKeepsResults(code, Initial(run), es);
    assert Reported(History(code, Initial(run), es), k, History(code, Initial(run), es).passes[k]);
  }

  /* ---- when an accepted completion is not reported ---- */

  /** The pass is about to be told that its completion was accepted. */
  predicate Acknowledged(p: Pass, v: Value) {
    p.phase.Calling? && p.phase.cont == RunCompleted(v) && p.reply == Some(Accepted)
  }

  /** The accepting reply is lost; or the completion is accepted after its pass was told it had failed. */
  predicate LosesIt(w: World, e: Event, k: nat, v: Value) {
    || (e == ReplyLost(k) && k in w.passes && Acknowledged(w.passes[k], v))
    || (e.Arrives? && e.write.token == k && e.write.req == CompleteRun(v) && Accepts(w.run, e.write.worker, k) && e.found.storable)
  }

  /** Somewhere in the history the pass loses the acceptance of its completion. */
  predicate AcceptanceLost(code: Code, w: World, es: seq<Event>, k: nat, v: Value)
    decreases es
  {
    es != [] && (
      || (Enabled(w, es[0]) && LosesIt(w, es[0], k, v))
      || AcceptanceLost(code, if Enabled(w, es[0]) then Next(code, w, es[0]) else w, es[1..], k, v))
  }

  /** Where a pass stands whose completion was accepted, by whether it has lost the news. */
  predicate Stands(p: Pass, v: Value, lost: bool) {
    if lost then ToldFailure(p, v) else p.phase == Finished(Completes(v)) || Acknowledged(p, v)
  }

  ghost predicate Tracks(w: World, k: nat, v: Value, lost: bool) {
    if AcceptedWrite(k, CompleteRun(v), Accepted) in w.writes then k in w.passes && Stands(w.passes[k], v, lost)
    else !lost
  }

  lemma LastWrite(code: Code, w: World, e: Event, x: AcceptedWrite)
    requires Enabled(w, e) && x !in w.writes && x in Next(code, w, e).writes
    ensures Next(code, w, e).writes == w.writes + [x] && Writer(e) == Some(x.token)
  {
    WritesOnlyGrow(code, w, e);
    var writes := Next(code, w, e).writes;
    var i :| 0 <= i < |writes| && writes[i] == x;
    assert i == |w.writes|;
  }

  /** An acceptance is written by its own commit, which tells the pass so, or late. */
  lemma FirstAccepted(code: Code, w: World, e: Event, k: nat, v: Value)
    requires ResultsTruthful(w) && Enabled(w, e) && AcceptedWrite(k, CompleteRun(v), Accepted) !in w.writes
    requires AcceptedWrite(k, CompleteRun(v), Accepted) in Next(code, w, e).writes
    ensures k in Next(code, w, e).passes && Stands(Next(code, w, e).passes[k], v, LosesIt(w, e, k, v))
  {
    LastWrite(code, w, e, AcceptedWrite(k, CompleteRun(v), Accepted));
    if e.Commits? {
      assert WellPhased(w.passes[k]) && w.passes[k].phase.req == CompleteRun(v);
    } else {
      assert LateTruthful(w, e.write) && e.write.req == CompleteRun(v);
    }
  }

  /** The news of an acceptance stays, or is lost with the reply. */
  lemma StandsOn(code: Code, w: World, e: Event, k: nat, v: Value, lost: bool)
    requires Ordered(w) && Enabled(w, e) && k in w.passes && Stands(w.passes[k], v, lost)
    requires w.run.status.Completed?
    ensures k in Next(code, w, e).passes && Stands(Next(code, w, e).passes[k], v, lost || LosesIt(w, e, k, v))
  {
    if lost {
      ToldStays(code, w, e, k, v);
    } else {
      assert LinkedPass(w.run, k, w.passes[k]);
      if !Addresses(e, k) { OthersUntouched(code, w, e, k); }
    }
  }

  lemma NotLostBefore(code: Code, w: World, e: Event, k: nat, v: Value)
    requires ResultsTruthful(w) && Enabled(w, e) && LosesIt(w, e, k, v)
    ensures AcceptedWrite(k, CompleteRun(v), Accepted) in Next(code, w, e).writes
  {
    var w', accepted := Next(code, w, e), AcceptedWrite(k, CompleteRun(v), Accepted);
    if e.Arrives? {
      assert LateBehind(w, e.write) && LinkedPass(w.run, k, w.passes[k]);
      assert w'.writes[|w.writes|] == accepted;
    } else {
      assert Reported(w, k, w.passes[k]) && Completing(w.passes[k], v);
    }
  }

  lemma NextTracks(code: Code, w: World, e: Event, k: nat, v: Value, lost: bool)
    requires ResultsTruthful(w) && Enabled(w, e) && Tracks(w, k, v, lost)
    ensures Tracks(Next(code, w, e), k, v, lost || LosesIt(w, e, k, v))
  {
    var accepted := AcceptedWrite(k, CompleteRun(v), Accepted);
    WritesOnlyGrow(code, w, e);
    if accepted in w.writes {
      assert Reported(w, k, w.passes[k]);
      StandsOn(code, w, e, k, v, lost);
      var i :| 0 <= i < |w.writes| && w.writes[i] == accepted;
      assert Next(code, w, e).writes[i] == accepted;
    } else if accepted in Next(code, w, e).writes {
      FirstAccepted(code, w, e, k, v);
    } else if LosesIt(w, e, k, v) {
      NotLostBefore(code, w, e, k, v);
    }
  }

  lemma {:induction false} HistoryTracks(code: Code, w: World, es: seq<Event>, k: nat, v: Value, lost: bool)
    requires ResultsTruthful(w) && ForgesNoSignal(code.body) && Tracks(w, k, v, lost)
    ensures Tracks(History(code, w, es), k, v, lost || AcceptanceLost(code, w, es, k, v))
    decreases es
  {
    if es != [] {
      if Enabled(w, es[0]) {
        NextTracks(code, w, es[0], k, v, lost);
        NextKeepsResults(code, w, es[0]);
        HistoryTracks(code, Next(code, w, es[0]), es[1..], k, v, lost || LosesIt(w, es[0], k, v));
      } else {
        HistoryTracks(code, w, es[1..], k, v, lost);
      }
    }
  }

  /** A finished pass whose completion was accepted reports 'completed', unless and only unless the
      accepting reply was lost on the way, or the completion was accepted only after the pass had
      been told that it failed: then the executor throws. */
  lemma CompletedUnlessReplyLost(code: Code, run: Run, es: seq<Event>, k: nat, v: Value)
    requires Fresh(run) && ForgesNoSignal(code.body) && k in History(code, Initial(run), es).passes
    requires var w := History(code, Initial(run), es);
      AcceptedWrite(k, CompleteRun(v), Accepted) in w.writes && w.passes[k].phase.Finished?
    ensures var result := History(code, Initial(run), es).passes[k].phase.result;
      && (result.Crashes? <==> AcceptanceLost(code, Initial(run), es, k, v))
      && (result == Completes(v) <==> !AcceptanceLost(code, Initial(run), es, k, v))
  {
    HistoryTracks(code, Initial(run), es, k, v, false);
  }

  /** One claim; the body returns at once; the completion commits and its reply is lost. */
  const LOST_REPLY: seq<Event> :=
    [Claimed(1, Fit), Turn(1, NULL), Commits(1, Circumstance(true, false, NULL)), ReplyLost(1), Delivered(1)]

  /** The same, but the completion commits after its pass was told that it had failed. */
  function LateCompletion(v: Value): seq<Event> {
    [Claimed(1, Fit), Turn(1, NULL), RequestLost(1), Delivered(1),
     Arrives(LateWrite(1, 1, 1, CompleteRun(v)), Circumstance(true, false, NULL))]
  }

  lemma SendTheCompletion(code: Code, run: Run, v: Value, es: seq<Event>) returns (w: World)
    requires Fresh(run) && code.body(1, []) == Return(v)
    requires |es| > 2 && es[0] == Claimed(1, Fit) && es[1] == Turn(1, NULL)
    ensures History(code, Initial(run), es) == History(code, w, es[2..])
    ensures w.run == Claim(run, 1) && w.writes == [] && w.late == {} && 1 in w.passes
    ensures w.passes[1] == Pass(1, 1, 1, map[], 0, [], Calling(CompleteRun(v), RunCompleted(v)), None, None, false, false, None, [CompleteRun(v)])
  {
    var w0 := Initial(run);
    var w1 := Next(code, w0, es[0]);
    w := Next(code, w1, es[1]);
    HistoryStep(code, w0, es);
    HistoryStep(code, w1, es[1..]);
    assert es[1..][1..] == es[2..];
  }

  /** Then the run is completed with that output, and the executor throws. */
  lemma LostReplyCrashes(code: Code, run: Run, v: Value)
    requires Fresh(run) && code.body(1, []) == Return(v)
    ensures var w := History(code, Initial(run), LOST_REPLY);
      && 1 in w.passes && w.passes[1].phase == Finished(Crashes)
      && w.run.status.Completed? && w.run.output == Some(v) && w.writes == [AcceptedWrite(1, CompleteRun(v), Accepted)]
  {
    var w2 := SendTheCompletion(code, run, v, LOST_REPLY);
    var w3 := Next(code, w2, LOST_REPLY[2]);
    var w4 := Next(code, w3, LOST_REPLY[3]);
    HistoryStep(code, w2, LOST_REPLY[2..]);
    HistoryStep(code, w3, LOST_REPLY[3..]);
    HistoryStep(code, w4, LOST_REPLY[4..]);
  }

  lemma LateCompletionCrashes(code: Code, run: Run, v: Value)
    requires Fresh(run) && code.body(1, []) == Return(v)
    ensures var w := History(code, Initial(run), LateCompletion(v));
      && 1 in w.passes && w.passes[1].phase == Finished(Crashes)
      && w.run.status.Completed? && w.run.output == Some(v) && w.writes == [AcceptedWrite(1, CompleteRun(v), Accepted)]
  {
    var es := LateCompletion(v);
    var w2 := SendTheCompletion(code, run, v, es);
    var w3 := Next(code, w2, es[2]);
    var w4 := Next(code, w3, es[3]);
    HistoryStep(code, w2, es[2..]);
    HistoryStep(code, w3, es[3..]);
    HistoryStep(code, w4, es[4..]);
  }
}
