/** What the transactions nobody's claim guards do to a run, in literal rows; and where its two
    budgets go: attempts to failures of user code, recoveries to lost workers, and neither to
    claims, hand-backs, cancels, suspensions or resumptions. */
module LedgerOutcomes {
  import opened Options
  import opened RunLedger
  import opened Fencing

  /** The lease reaper: an expired lease on a running run spends a recovery and requeues the run in the
      same attempt and under the same token, or fails it when none is left; on any other run it only
      drops the row or clears the lock; and without a lease it does nothing. */
  lemma ReapSpendsRecovery(r: Run)
    ensures var q := Apply(r, ReapLease);
      && (!r.queue.LockedBy? ==> q == r)
      && (r.queue.LockedBy? && r.status == Running && r.recoveries < r.maxRecoveries ==>
            q == r.(status := Queued, queue := Unlocked, recoveries := r.recoveries + 1))
      && (r.queue.LockedBy? && r.status == Running && r.recoveries >= r.maxRecoveries ==>
            q == r.(status := Failed, queue := NoRow, wait := None))
      && (r.queue.LockedBy? && (r.status == Completed || r.status == Failed || r.status == Canceled) ==> q == r.(queue := NoRow))
      && (r.queue.LockedBy? && (r.status == Queued || r.status == Waiting) ==> q == r.(queue := Unlocked))
  {
  }

  /** The hand-back of a worker's own claim requeues the run as it was; anyone else's does nothing. */
  lemma ReleaseSpendsNothing(r: Run, worker: nat)
    requires Consistent(r)
    ensures Apply(r, ReleaseClaims(worker)) == if r.queue == LockedBy(worker) then r.(status := Queued, queue := Unlocked) else r
  {
  }

  /** Cancel ends any run that has not ended yet, and drops its queue row and its wait. */
  lemma CancelEnds(r: Run)
    ensures Apply(r, CancelRun)
      == if r.status == Completed || r.status == Failed || r.status == Canceled then r
         else r.(status := Canceled, queue := NoRow, wait := None)
  {
  }

  /** A claim takes a queued run under the next token and changes nothing else; there is no other. */
  lemma ClaimTakes(r: Run, worker: nat)
    ensures Apply(r, ClaimBy(worker))
      == if r.status == Queued && r.queue == Unlocked then r.(status := Running, queue := LockedBy(worker), token := r.token + 1) else r
  {
  }

  /** A resumption or a lost child concerns a waiting run alone. */
  lemma OnlyWaitingResumes(r: Run, result: Value)
    requires Consistent(r)
    ensures r.status != Waiting ==> Apply(r, ResumeWait(result)) == r && Apply(r, ChildDeleted) == r
    ensures r.status == Waiting && r.wait.value.kind != TriggerAndWait ==> Apply(r, ChildDeleted) == r
    ensures r.status == Waiting && r.wait.value.kind == TriggerAndWait ==> Apply(r, ChildDeleted) == r.(status := Failed, wait := None)
    ensures r.status == Waiting && !(r.wait.value.pos in r.ledger && r.ledger[r.wait.value.pos].completed) ==>
      Apply(r, ResumeWait(result)) == r.(status := Queued, queue := Unlocked, wait := None,
        ledger := r.ledger[r.wait.value.pos := Row(r.wait.value.kind, None, Some(r.wait.value.fingerprint), true,
                                                   if r.wait.value.kind == Wait then NULL else result, r.wait.value.claim)])
  {
  }

  /* ---- the two budgets over a history ---- */

  /** A worker was lost and the run had a recovery left. */
  predicate LosesWorker(r: Run, t: Transaction) {
    t.ReapLease? && r.status == Running && r.queue.LockedBy? && r.recoveries < r.maxRecoveries
  }

  /** A failure of user code was accepted, was no abort, and the policy had an attempt left. */
  predicate Retries(r: Run, t: Transaction) {
    && t.Write? && t.req.FailRun? && r.status == Running && r.queue == LockedBy(t.worker) && r.token == t.token && !t.req.abort
    && r.attempt < if t.req.retry.Policy? && t.req.retry.maxAttempts.Some? then t.req.retry.maxAttempts.value else r.maxAttempts
  }

  function LostWorkers(r: Run, ts: seq<Transaction>): nat
    decreases ts
  {
    if ts == [] then 0 else (if LosesWorker(r, ts[0]) then 1 else 0) + LostWorkers(Apply(r, ts[0]), ts[1..])
  }

  function RetriedFailures(r: Run, ts: seq<Transaction>): nat
    decreases ts
  {
    if ts == [] then 0 else (if Retries(r, ts[0]) then 1 else 0) + RetriedFailures(Apply(r, ts[0]), ts[1..])
  }

  lemma OneSpends(r: Run, t: Transaction)
    requires Consistent(r)
    ensures Apply(r, t).recoveries == r.recoveries + if LosesWorker(r, t) then 1 else 0
    ensures Apply(r, t).attempt == r.attempt + if Retries(r, t) then 1 else 0
    ensures Apply(r, t).maxAttempts == r.maxAttempts && Apply(r, t).maxRecoveries == r.maxRecoveries
  {
  }

  /** Over any history: the recoveries spent are the workers lost, the attempts begun are the failures
      retried, and the former never exceed their budget. */
  lemma {:induction false} BudgetsSpent(r: Run, ts: seq<Transaction>)
    requires Consistent(r)
    ensures var q := ApplyAll(r, ts);
      && q.recoveries == r.recoveries + LostWorkers(r, ts) && q.recoveries <= r.maxRecoveries
      && q.attempt == r.attempt + RetriedFailures(r, ts)
      && q.maxAttempts == r.maxAttempts && q.maxRecoveries == r.maxRecoveries
    decreases ts
  {
    if ts != [] {
      OneSpends(r, ts[0]);
      ApplyKeepsConsistent(r, ts[0]);
      BudgetsSpent(Apply(r, ts[0]), ts[1..]);
    }
  }
}
