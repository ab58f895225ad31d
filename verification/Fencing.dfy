/** Safety of the fencing token over every history of the run's rows: any workers, with any
    credentials, in any order, between claims, reaps, hand-backs, cancels and resumes. */
module Fencing {
  import opened RunLedger

  datatype Transaction =
    | Write(worker: nat, token: nat, req: Request, found: Circumstance)
    | ClaimBy(worker: nat)
    | CancelRun
    | ReapLease
    | ReleaseClaims(worker: nat)
    | ResumeWait(result: Value)
    | ChildDeleted

  function Apply(r: Run, t: Transaction): Run {
    match t
    case Write(worker, token, req, found) => Commit(r, worker, token, req, found).run
    case ClaimBy(worker) => if Claimable(r) then Claim(r, worker) else r
    case CancelRun => Cancel(r)
    case ReapLease => Reap(r)
    case ReleaseClaims(worker) => Release(r, worker)
    case ResumeWait(result) => Resume(r, result)
    case ChildDeleted => LoseChild(r)
  }

  function ApplyAll(r: Run, ts: seq<Transaction>): Run
    decreases ts
  {
    if ts == [] then r else ApplyAll(Apply(r, ts[0]), ts[1..])
  }

  lemma ApplyKeepsConsistent(r: Run, t: Transaction)
    requires Consistent(r)
    ensures Consistent(Apply(r, t))
  {
  }

  lemma ApplyAdvances(r: Run, t: Transaction)
    requires Consistent(r)
    ensures Advances(r, Apply(r, t))
  {
  }

  /** Whatever happens: the rows stay consistent, completed step rows are never rewritten,
      the token never falls and a terminal run never changes again. */
  lemma {:induction false} HistoryAdvances(r: Run, ts: seq<Transaction>)
    requires Consistent(r)
    ensures Consistent(ApplyAll(r, ts))
    ensures Advances(r, ApplyAll(r, ts))
    decreases ts
  {
    if ts != [] {
      ApplyKeepsConsistent(r, ts[0]);
      ApplyAdvances(r, ts[0]);
      HistoryAdvances(Apply(r, ts[0]), ts[1..]);
    }
  }

  /** A claim that may no longer write can never write again: not after a release to and
      re-claim by the same worker, a suspension, a reap or anything else. */
  lemma {:induction false} RejectedForever(r: Run, worker: nat, token: nat, ts: seq<Transaction>)
    requires Consistent(r)
    requires token <= r.token && !Accepts(r, worker, token)
    ensures !Accepts(ApplyAll(r, ts), worker, token)
    decreases ts
  {
    if ts != [] {
      var r' := Apply(r, ts[0]);
      ApplyKeepsConsistent(r, ts[0]);
      ApplyAdvances(r, ts[0]);
      RejectedForever(r', worker, token, ts[1..]);
    }
  }

  /** The tokens handed out by the claims of a history, oldest first. */
  function ClaimTokens(r: Run, ts: seq<Transaction>): seq<nat>
    decreases ts
  {
    if ts == [] then []
    else
      var minted := if ts[0].ClaimBy? && Claimable(r) then [r.token + 1] else [];
      minted + ClaimTokens(Apply(r, ts[0]), ts[1..])
  }

  /** No two claims of a run ever get the same token, whatever lies between them. */
  lemma {:induction false} TokensNeverRepeat(r: Run, ts: seq<Transaction>)
    requires Consistent(r)
    ensures forall i :: 0 <= i < |ClaimTokens(r, ts)| ==> ClaimTokens(r, ts)[i] > r.token
    ensures forall i, j :: 0 <= i < j < |ClaimTokens(r, ts)| ==> ClaimTokens(r, ts)[i] < ClaimTokens(r, ts)[j]
    decreases ts
  {
    if ts != [] {
      ApplyKeepsConsistent(r, ts[0]);
      ApplyAdvances(r, ts[0]);
      TokensNeverRepeat(Apply(r, ts[0]), ts[1..]);
    }
  }

  datatype Credentials = Credentials(worker: nat, token: nat)

  /** The credentials of the accepted writes of a history, oldest first. */
  function AcceptedWrites(r: Run, ts: seq<Transaction>): seq<Credentials>
    decreases ts
  {
    if ts == [] then []
    else
      var accepted :=
        if ts[0].Write? && Accepts(r, ts[0].worker, ts[0].token) then [Credentials(ts[0].worker, ts[0].token)] else [];
      accepted + AcceptedWrites(Apply(r, ts[0]), ts[1..])
  }

  /** Later writes come from the same claim or from a later one. */
  predicate NotBefore(a: Credentials, b: Credentials) {
    a == b || a.token < b.token
  }

  /** Accepted writes are serialized by claim: once a newer claim has written, or merely
      been granted, no older one writes again, and one token is never shared by two workers. */
  lemma {:induction false} AcceptedInClaimOrder(r: Run, ts: seq<Transaction>)
    requires Consistent(r)
    ensures forall i, j :: 0 <= i < j < |AcceptedWrites(r, ts)| ==> NotBefore(AcceptedWrites(r, ts)[i], AcceptedWrites(r, ts)[j])
    ensures forall i :: 0 <= i < |AcceptedWrites(r, ts)| ==>
      AcceptedWrites(r, ts)[i].token > r.token || Accepts(r, AcceptedWrites(r, ts)[i].worker, AcceptedWrites(r, ts)[i].token)
    decreases ts
  {
    if ts != [] {
      var r' := Apply(r, ts[0]);
      var rest := AcceptedWrites(r', ts[1..]);
      ApplyKeepsConsistent(r, ts[0]);
      ApplyAdvances(r, ts[0]);
      AcceptedInClaimOrder(r', ts[1..]);
      forall i | 0 <= i < |rest|
        ensures rest[i].token > r.token || Accepts(r, rest[i].worker, rest[i].token)
      {
        if rest[i].token <= r.token && !Accepts(r, rest[i].worker, rest[i].token) {
          RejectedForever(r, rest[i].worker, rest[i].token, [ts[0]]);
        }
      }
    }
  }
}
