/** The deployment service as it runs: a repository slot updated in place by a bounded loop. */
module DidService {
  import opened Common
  import opened Codecs
  import opened DidOperation
  import opened DidDeployment
  import opened DidHistory
  import opened DidProgress
  import opened DidTheorems

  lemma {:induction false} StoredConcat(stored: Option<Operation>, a: seq<Io>, b: seq<Io>)
    ensures Stored(stored, a + b) == Stored(Stored(stored, a), b)
  {
    if b == [] {
      assert a + b == a;
    } else {
      StoredConcat(stored, a, b[..|b| - 1]);
      assert (a + b)[..|a + b| - 1] == a + b[..|b| - 1];
    }
  }

  /** Two consecutive pieces of history, as one. */
  lemma Joined(before: Option<Operation>, past: seq<Io>, first: seq<Io>, rest: seq<Io>,
               stored: Option<Operation>, performed: seq<Io>)
    requires performed == (past + first) + rest && stored == Stored(Stored(before, first), rest)
    ensures performed == past + (first + rest) && stored == Stored(before, first + rest)
  {
    StoredConcat(before, first, rest);
  }

  /** One unrolling of the loop, after `io` was already performed. */
  lemma DriveStep(step: Stepper, op: Operation, answers: seq<Answers>, i: nat, turn: Turn, io: seq<Io>)
    requires i < |answers| && turn == step(op, answers[i])
    ensures After(io, Drive(step, op, answers[i..])) ==
            if turn.next.Continue? then After(io + turn.io, Drive(step, turn.next.op, answers[i + 1..]))
            else After(io, turn)
  {
    assert answers[i..][0] == answers[i] && answers[i..][1..] == answers[i + 1..];
    if turn.next.Continue? {
      var rest := Drive(step, turn.next.op, answers[i + 1..]).io;
      assert io + (turn.io + rest) == io + turn.io + rest;
    }
  }

  ghost predicate LegalHistory(io: seq<Io>, stored: Option<Operation>) {
    LegalRun(START, io) && stored == Stored(None, io)
  }

  /** A run from what a legal history left continues it legally. */
  lemma {:induction false} RunContinues(past: seq<Io>, before: Option<Operation>, request: Request,
                                        answers: seq<Answers>, io: seq<Io>)
    requires LegalHistory(past, before) && io == DidDeployment.Run(before, request, answers).io
    ensures LegalHistory(past + io, Stored(before, io))
  {
    var st := Final(START, past);
    FinalStored(START, past);
    LegalRunKeepsSound(START, past);
    RunOk(st, request, answers);
    LegalConcat(START, past, io);
    StoredConcat(None, past, io);
  }

  class DeploymentService {
    /** The operation of one profile and network, if any. */
    var stored: Option<Operation>
    ghost var performed: seq<Io>

    /** The service's whole history is legal, and the repository holds what it left. */
    ghost predicate Valid()
      reads this
    {
      LegalHistory(performed, stored)
    }

    /** A process that starts on what earlier processes left; `past` is everything they performed. */
    constructor (saved: Option<Operation>, ghost past: seq<Io>)
      requires LegalHistory(past, saved)
      ensures Valid() && stored == saved && performed == past
    {
      stored := saved;
      performed := past;
    }

    /** In the service's own history, every submission directly follows the write of that operation in Submitting. */
    lemma WrittenAhead(i: nat)
      requires Valid() && i < |performed| && performed[i].Submit?
      ensures i > 0 && performed[i - 1] == Upsert(performed[i].op) && performed[i].op.state == Submitting
      ensures performed[i].draft == SubmissionId(performed[i].op.id, performed[i].op.effect)
    {
      LegalIsWrittenAhead(performed, i);
    }

    /** ... and each effect is submitted at most once, in effect order. */
    lemma OnceInOrder()
      requires Valid()
      ensures |Submissions(performed)| <= EFFECTS
      ensures forall i :: 0 <= i < |Submissions(performed)| ==> Submissions(performed)[i] == EffectAt(i)
    {
      LegalSubmissionsAreBounded(performed);
      SubmissionsInOrder(performed);
    }

    /** What the service has after performing `io` from an earlier standing. */
    ghost predicate Performs(before: Option<Operation>, past: seq<Io>, io: seq<Io>)
      reads this
    {
      performed == past + io && stored == Stored(before, io)
    }

    method Save(op: Option<Operation>, ok: bool) returns (saved: Option<Operation>)
      modifies this
      ensures saved == Commit(op, ok)
      ensures Performs(old(stored), old(performed), if saved.Some? then [Upsert(saved.value)] else [])
    {
      saved := Commit(op, ok);
      if saved.Some? {
        stored := saved;
        performed := performed + [Upsert(saved.value)];
      }
    }

    method Pause(op: Operation, failure: Failure, now: Option<int>, ok: bool) returns (next: Next)
      modifies this
      ensures next == PauseTurn(op, failure, now, ok).next
      ensures Performs(old(stored), old(performed), PauseTurn(op, failure, now, ok).io)
    {
      if now.None? {
        return Fail(Unavailable);
      }
      var paused := Save(Paused(op, failure, now.value), ok);
      next := if paused.None? then Fail(OperationFailed) else Return(paused.value);
    }

    method Resolve(op: Operation, a: Answers) returns (next: Next)
      modifies this
      ensures next == ResolveTurn(op, a).next
      ensures Performs(old(stored), old(performed), ResolveTurn(op, a).io)
    {
      if op.did.None? {
        return Fail(Integrity);
      }
      match a.resolution {
        case ResolverDown => next := Pause(op, ResolutionUnavailable, Time(a, 0), Write(a, 0));
        case ResolverFailed => next := Fail(Resolution);
        case Mismatching => next := Pause(op, ResolutionMismatch, Time(a, 0), Write(a, 0));
        case Matching =>
          if Time(a, 0).None? {
            return Fail(Unavailable);
          }
          var ready := Save(Transition(op, Ready, Time(a, 0).value), Write(a, 0));
          next := if ready.None? then Fail(OperationFailed) else Return(ready.value);
      }
    }

    method Include(op: Operation, transaction: Option<Hash>, block: Option<Hash>, height: Option<int>,
                   confirmed: Option<int>, now: Option<int>, ok: bool) returns (next: Next)
      modifies this
      ensures next == IncludeTurn(op, transaction, block, height, confirmed, now, ok).next
      ensures Performs(old(stored), old(performed), IncludeTurn(op, transaction, block, height, confirmed, now, ok).io)
    {
      if confirmed.None? {
        return Fail(Unavailable);
      }
      var confirming := Transition(op, Confirming, confirmed.value);
      if confirming.None? {
        return Fail(OperationFailed);
      }
      if transaction.None? || block.None? || height.None? {
        return Fail(Integrity);
      }
      if now.None? {
        return Fail(Unavailable);
      }
      var transactionHex := EncodeHex(transaction.value);
      var blockHex := EncodeHex(block.value);
      var included := Save(Included(confirming.value, transactionHex, blockHex, height.value, now.value), ok);
      next := if included.None? then Fail(OperationFailed) else Continue(included.value);
    }

    method Reconcile(op: Operation, a: Answers) returns (next: Next)
      modifies this
      ensures next == ReconcileTurn(op, a).next
      ensures Performs(old(stored), old(performed), ReconcileTurn(op, a).io)
    {
      if op.submissionId.None? {
        return Fail(Integrity);
      }
      ghost var query := [Query(op.submissionId.value)];
      performed := performed + query;
      ghost var before, past := stored, performed;
      match a.status {
        case StatusFailed => next := Fail(Transaction);
        case StillOpen => next := Return(op);
        case RejectedOrExpired =>
          next := Pause(op, SubmissionRejected, Time(a, 0), Write(a, 0));
          if next.Return? {
            next := Continue(next.op);
          }
          StoredConcat(before, query, PauseTurn(op, SubmissionRejected, Time(a, 0), Write(a, 0)).io);
        case OnLedger(transaction, block, height) =>
          next := Include(op, transaction, block, height, Time(a, 0), Time(a, 1), Write(a, 0));
          StoredConcat(before, query,
                       IncludeTurn(op, transaction, block, height, Time(a, 0), Time(a, 1), Write(a, 0)).io);
      }
    }

    method Resume(op: Operation, a: Answers) returns (next: Next)
      modifies this
      ensures next == ResumeTurn(op, a).next
      ensures Performs(old(stored), old(performed), ResumeTurn(op, a).io)
    {
      if op.resume.None? {
        return Fail(Integrity);
      }
      if Time(a, 0).None? {
        return Fail(Unavailable);
      }
      var resumed := Save(Transition(op, op.resume.value, Time(a, 0).value), Write(a, 0));
      next := if resumed.None? then Fail(OperationFailed) else Continue(resumed.value);
    }

    method MarkUnknown(op: Operation, now: Option<int>, ok: bool) returns (next: Next)
      modifies this
      ensures next == UnknownTurn(op, now, ok).next
      ensures Performs(old(stored), old(performed), UnknownTurn(op, now, ok).io)
    {
      if now.None? {
        return Fail(Unavailable);
      }
      var unknown := Save(Unknown(op, now.value), ok);
      next := if unknown.None? then Fail(OperationFailed) else Return(unknown.value);
    }

    method SubmitCall(op: Operation, draft: string, a: Answers) returns (next: Next)
      modifies this
      ensures next == SubmitTurn(op, draft, a).next
      ensures Performs(old(stored), old(performed), SubmitTurn(op, draft, a).io)
    {
      if op.createdAt + DEPLOYMENT_TTL_MILLIS > MAX_U64 {
        return Fail(InvalidRequest);
      }
      if Time(a, 3).None? {
        return Fail(Unavailable);
      }
      ghost var before, call := stored, [Submit(op, draft)];
      performed := performed + call;
      match a.submission {
        case Lost =>
          next := MarkUnknown(op, Time(a, 4), Write(a, 3));
          StoredConcat(before, call, UnknownTurn(op, Time(a, 4), Write(a, 3)).io);
        case Refused(failure) =>
          next := Pause(op, failure, Time(a, 4), Write(a, 3));
          StoredConcat(before, call, PauseTurn(op, failure, Time(a, 4), Write(a, 3)).io);
        case Accepted(transaction, block, height) =>
          next := Include(op, Some(transaction), Some(block), Some(height), Time(a, 4), Time(a, 5), Write(a, 3));
          StoredConcat(before, call, IncludeTurn(op, Some(transaction), Some(block), Some(height),
                                                 Time(a, 4), Time(a, 5), Write(a, 3)).io);
      }
    }

    method StoreSubmitting(op: Operation, draft: string, a: Answers) returns (next: Next)
      modifies this
      ensures next == SubmittingTurn(op, draft, a).next
      ensures Performs(old(stored), old(performed), SubmittingTurn(op, draft, a).io)
    {
      if Time(a, 2).None? {
        return Fail(Unavailable);
      }
      var submitting := Save(Transition(op, Submitting, Time(a, 2).value), Write(a, 2));
      if submitting.None? {
        return Fail(OperationFailed);
      }
      next := SubmitCall(submitting.value, draft, a);
      Joined(old(stored), old(performed), [Upsert(submitting.value)], SubmitTurn(submitting.value, draft, a).io,
             stored, performed);
    }

    method FundAndProve(op: Operation, draft: string, a: Answers) returns (next: Next)
      modifies this
      ensures next == FundTurn(op, draft, a).next
      ensures Performs(old(stored), old(performed), FundTurn(op, draft, a).io)
    {
      if a.funding.Some? {
        next := Pause(op, a.funding.value, Time(a, 1), Write(a, 1));
        return;
      }
      if Time(a, 1).None? {
        return Fail(Unavailable);
      }
      var proving := Save(Transition(op, Proving, Time(a, 1).value), Write(a, 1));
      if proving.None? {
        return Fail(OperationFailed);
      }
      next := StoreSubmitting(proving.value, draft, a);
      Joined(old(stored), old(performed), [Upsert(proving.value)], SubmittingTurn(proving.value, draft, a).io,
             stored, performed);
    }

    method Record(op: Operation, did: Option<Did>, draft: string, a: Answers) returns (next: Next)
      modifies this
      ensures next == RecordTurn(op, did, draft, a).next
      ensures Performs(old(stored), old(performed), RecordTurn(op, did, draft, a).io)
    {
      if (op.effect == DeployContract) == did.None? {
        return Fail(Integrity);
      }
      if Time(a, 0).None? {
        return Fail(Unavailable);
      }
      var prepared := Save(Prepare(op, did, draft, Time(a, 0).value), Write(a, 0));
      if prepared.None? {
        return Fail(OperationFailed);
      }
      next := FundAndProve(prepared.value, draft, a);
      Joined(old(stored), old(performed), [Upsert(prepared.value)], FundTurn(prepared.value, draft, a).io,
             stored, performed);
    }

    method Plan(op: Operation, did: Option<Did>, a: Answers) returns (next: Next)
      modifies this
      ensures next == PlannedTurn(op, did, a).next
      ensures Performs(old(stored), old(performed), PlannedTurn(op, did, a).io)
    {
      var draft := SubmissionId(op.id, op.effect);
      if op.state == Composing {
        next := Record(op, did, draft, a);
      } else if op.submissionId != Some(draft) || (op.effect == DeployContract && op.did != did) {
        next := Fail(Integrity);
      } else {
        next := FundAndProve(op, draft, a);
      }
    }

    method Iterate(op: Operation, a: Answers) returns (next: Next)
      modifies this
      ensures next == Iteration(op, a).next
      ensures Performs(old(stored), old(performed), Iteration(op, a).io)
    {
      match op.state {
        case Ready => next := Return(op);
        case Resolving => next := Resolve(op, a);
        case OutcomeUnknown => next := Reconcile(op, a);
        case RetryableFailure => next := Resume(op, a);
        case _ =>
          match a.compose {
            case Planned(did) => next := Plan(op, did, a);
            case ComposerFailed(error) =>
              if error == IndexerPending {
                next := Return(op);
              } else if error == Unavailable {
                next := Pause(op, CompositionUnavailable, Time(a, 0), Write(a, 0));
              } else {
                next := Fail(error);
              }
          }
      }
    }

    /** The bounded loop computes the recursive form, and leaves in the repository what it performed. */
    method Drain(op: Operation, answers: seq<Answers>) returns (next: Next)
      requires |answers| == ITERATIONS
      modifies this
      ensures next == Loop(op, answers).next
      ensures Performs(old(stored), old(performed), Loop(op, answers).io)
    {
      var current, i := op, 0;
      ghost var io: seq<Io> := [];
      ghost var all := Drive(Iteration, op, answers);
      LoopIsDrive(op, answers);
      assert answers[0..] == answers;
      while i < ITERATIONS
        invariant 0 <= i <= ITERATIONS
        invariant Performs(old(stored), old(performed), io)
        invariant all == After(io, Drive(Iteration, current, answers[i..]))
      {
        next := Iterate(current, answers[i]);
        ghost var turn := Iteration(current, answers[i]);
        DriveStep(Iteration, current, answers, i, turn, io);
        Joined(old(stored), old(performed), io, turn.io, stored, performed);
        if !next.Continue? {
          return;
        }
        io := io + turn.io;
        current, i := next.op, i + 1;
      }
      assert answers[i..] == [] && all.io == io + [] == io;
      next := Fail(Integrity);
    }

    method Begin(request: Request, answers: seq<Answers>) returns (next: Next)
      requires |answers| == ITERATIONS
      modifies this
      ensures next == BeginTurn(request, answers).next
      ensures Performs(old(stored), old(performed), BeginTurn(request, answers).io)
    {
      if request.random.None? || request.now.None? {
        return Fail(Unavailable);
      }
      var op := Save(NewOperation(FreshId(request.random.value), request.profile, request.network,
                                  request.now.value), request.write);
      if op.None? {
        return Fail(OperationFailed);
      }
      next := Drain(op.value, answers);
      Joined(old(stored), old(performed), [Upsert(op.value)], Loop(op.value, answers).io, stored, performed);
    }

    /** `run`: the repository and the history move as specified, and the history stays legal. */
    method Run(request: Request, answers: seq<Answers>) returns (next: Next)
      requires Valid() && |answers| == ITERATIONS
      modifies this
      ensures Valid()
      ensures next == DidDeployment.Run(old(stored), request, answers).next
      ensures Performs(old(stored), old(performed), DidDeployment.Run(old(stored), request, answers).io)
    {
      if request.network == Offchain {
        next := Fail(InvalidRequest);
      } else if stored.None? {
        next := Begin(request, answers);
      } else if stored.value.state == Ready {
        next := Return(stored.value);
      } else {
        next := Drain(stored.value, answers);
      }
      RunContinues(old(performed), old(stored), request, answers, DidDeployment.Run(old(stored), request, answers).io);
    }
  }
}
