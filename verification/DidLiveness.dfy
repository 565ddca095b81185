/** Which stored deployments can still become Ready, exactly. */
module DidLiveness {
  import opened Common
  import opened Codecs
  import opened DidOperation
  import opened DidDeployment
  import opened DidHistory
  import opened DidTheorems
  import opened DidProgress

  /** Stored as Submitting, or paused there: the loop would have to go back to Proving, which is not a transition. */
  predicate Stuck(op: Operation) {
    op.state == Submitting || (op.state == RetryableFailure && op.resume == Some(Submitting))
  }

  predicate NeedsSubmission(op: Operation) {
    Ordinal(op.effect) + (if op.state == OutcomeUnknown then 1 else 0) < EFFECTS
  }

  /** The request expiry of this operation does not fit 64 bits. */
  predicate ExpiryOverflows(op: Operation) {
    op.createdAt + DEPLOYMENT_TTL_MILLIS > MAX_U64
  }

  predicate Blocked(op: Operation) {
    Stuck(op) || (NeedsSubmission(op) && ExpiryOverflows(op))
  }

  // -------------------------------------------------------------- blocked is for ever

  predicate Idle(e: Io) {
    !e.Submit? && (e.Upsert? ==> Valid(e.op) && Blocked(e.op))
  }

  predicate StaysBlocked(turn: Turn) {
    && (forall i :: 0 <= i < |turn.io| ==> Idle(turn.io[i]))
    && (!turn.next.Fail? ==> Valid(turn.next.op) && Blocked(turn.next.op))
  }

  lemma PauseStaysBlocked(op: Operation, failure: Failure, now: Option<int>, ok: bool)
    requires Valid(op) && Blocked(op)
    ensures StaysBlocked(PauseTurn(op, failure, now, ok))
  {
  }

  lemma {:induction false} IncludeStaysBlocked(op: Operation, transaction: Option<Hash>, block: Option<Hash>,
                                               height: Option<int>, confirmed: Option<int>, now: Option<int>, ok: bool)
    requires Blocked(op) && op.state == OutcomeUnknown
    ensures StaysBlocked(IncludeTurn(op, transaction, block, height, confirmed, now, ok))
  {
    var turn := IncludeTurn(op, transaction, block, height, confirmed, now, ok);
    if turn.next.Continue? {
      var q := turn.next.op;
      var confirming := Transition(op, Confirming, confirmed.value).value;
      IncludedFields(op, confirming, q, HexOf(transaction.value), HexOf(block.value), height.value,
                     confirmed.value, now.value);
      StillBlocked(op, q);
    }
  }

  lemma {:induction false} StillBlocked(op: Operation, q: Operation)
    requires Blocked(op) && op.state == OutcomeUnknown
    requires q.effect == EffectAt(Ordinal(op.effect) + 1) && q.createdAt == op.createdAt
    requires q.state == Composing || q.state == Resolving
    ensures Blocked(q)
  {
  }

  lemma SubmittingStaysBlocked(op: Operation, draft: string, a: Answers)
    requires Valid(op) && NeedsSubmission(op) && ExpiryOverflows(op) && op.state == Proving
    ensures StaysBlocked(SubmittingTurn(op, draft, a))
  {
  }

  lemma FundStaysBlocked(op: Operation, draft: string, a: Answers)
    requires Valid(op) && Blocked(op) && op.state !in {OutcomeUnknown, RetryableFailure, Resolving, Ready}
    ensures StaysBlocked(FundTurn(op, draft, a))
  {
    if a.funding.Some? {
      PauseStaysBlocked(op, a.funding.value, Time(a, 1), Write(a, 1));
    } else if Time(a, 1).Some? {
      var proving := Commit(Transition(op, Proving, Time(a, 1).value), Write(a, 1));
      if proving.Some? {
        SubmittingStaysBlocked(proving.value, draft, a);
      }
    }
  }

  lemma PrepareKeeps(op: Operation, did: Option<Did>, draft: string, now: int, q: Operation)
    requires Prepare(op, did, draft, now) == Some(q)
    ensures q.state == Funding && q.effect == op.effect && q.createdAt == op.createdAt
  {
  }

  lemma PlannedStaysBlocked(op: Operation, did: Option<Did>, a: Answers)
    requires Valid(op) && Blocked(op) && op.state == Composing
    ensures StaysBlocked(PlannedTurn(op, did, a))
  {
    var draft := SubmissionId(op.id, op.effect);
    if Time(a, 0).Some? {
      var prepared := Commit(Prepare(op, did, draft, Time(a, 0).value), Write(a, 0));
      if prepared.Some? {
        PrepareKeeps(op, did, draft, Time(a, 0).value, prepared.value);
        FundStaysBlocked(prepared.value, draft, a);
        assert PlannedTurn(op, did, a) == Stop(Integrity)
            || PlannedTurn(op, did, a) == After([Upsert(prepared.value)], FundTurn(prepared.value, draft, a));
      }
    }
  }

  lemma ComposeStaysBlocked(op: Operation, a: Answers)
    requires Valid(op) && Blocked(op) && op.state !in {OutcomeUnknown, RetryableFailure, Resolving, Ready}
    ensures StaysBlocked(ComposeTurn(op, a))
  {
    PauseStaysBlocked(op, CompositionUnavailable, Time(a, 0), Write(a, 0));
    if a.compose.Planned? {
      if op.state == Composing {
        PlannedStaysBlocked(op, a.compose.did, a);
      } else {
        FundStaysBlocked(op, SubmissionId(op.id, op.effect), a);
      }
    }
  }

  lemma ReconcileStaysBlocked(op: Operation, a: Answers)
    requires Valid(op) && Blocked(op) && op.state == OutcomeUnknown
    ensures StaysBlocked(ReconcileTurn(op, a))
  {
    if a.status.OnLedger? {
      IncludeStaysBlocked(op, a.status.transaction, a.status.block, a.status.height,
                          Time(a, 0), Time(a, 1), Write(a, 0));
    }
  }

  lemma ResumeStaysBlocked(op: Operation, a: Answers)
    requires Valid(op) && Blocked(op) && op.state == RetryableFailure
    ensures StaysBlocked(ResumeTurn(op, a))
  {
    var turn := ResumeTurn(op, a);
    if turn.next.Continue? {
      ResumedStaysBlocked(op, Time(a, 0).value, turn.next.op);
    }
  }

  lemma {:induction false} ResumedStaysBlocked(op: Operation, now: int, q: Operation)
    requires Blocked(op) && op.state == RetryableFailure && op.resume.Some? && Valid(q)
    requires Transition(op, op.resume.value, now) == Some(q)
    ensures Blocked(q)
  {
    assert q.state == op.resume.value && q.effect == op.effect && q.createdAt == op.createdAt;
    assert q.state == OutcomeUnknown ==> q.resume == op.resume;
  }

  lemma IterationStaysBlocked(op: Operation, a: Answers)
    requires Valid(op) && Blocked(op)
    ensures StaysBlocked(Iteration(op, a))
  {
    if op.state == OutcomeUnknown {
      ReconcileStaysBlocked(op, a);
    } else if op.state == RetryableFailure {
      ResumeStaysBlocked(op, a);
    } else {
      ComposeStaysBlocked(op, a);
    }
  }

  lemma {:induction false} LoopStaysBlocked(op: Operation, answers: seq<Answers>)
    requires Valid(op) && Blocked(op)
    ensures forall i :: 0 <= i < |Loop(op, answers).io| ==> Idle(Loop(op, answers).io[i])
    decreases |answers|
  {
    if answers != [] {
      IterationStaysBlocked(op, answers[0]);
      if Iteration(op, answers[0]).next.Continue? {
        LoopStaysBlocked(Iteration(op, answers[0]).next.op, answers[1..]);
      }
    }
  }

  lemma {:induction false} IdleKeepsBlocked(op: Operation, io: seq<Io>)
    requires Valid(op) && Blocked(op) && forall i :: 0 <= i < |io| ==> Idle(io[i])
    ensures
      var stored := Stored(Some(op), io);
      stored.Some? && Valid(stored.value) && Blocked(stored.value)
  {
    if io != [] && !io[|io| - 1].Upsert? {
      IdleKeepsBlocked(op, io[..|io| - 1]);
    }
  }

  lemma {:induction false} RunStaysBlocked(op: Operation, attempt: Attempt)
    requires Valid(op) && Blocked(op)
    ensures forall i :: 0 <= i < |Performed(Some(op), attempt)| ==> Idle(Performed(Some(op), attempt)[i])
  {
    if op.state != Ready && attempt.request.network != Offchain {
      LoopStaysBlocked(op, attempt.answers);
    }
  }

  /** No sequence of runs submits anything for a blocked operation, or unblocks it. */
  lemma {:induction false} BlockedIsForever(op: Operation, attempts: seq<Attempt>)
    requires Valid(op) && Blocked(op)
    ensures forall i :: 0 <= i < |Trace(Some(op), attempts)| ==> Idle(Trace(Some(op), attempts)[i])
  {
    if attempts != [] {
      var earlier := Trace(Some(op), attempts[..|attempts| - 1]);
      BlockedIsForever(op, attempts[..|attempts| - 1]);
      IdleKeepsBlocked(op, earlier);
      RunStaysBlocked(Stored(Some(op), earlier).value, attempts[|attempts| - 1]);
    }
  }

  // --------------------------------------------------------- unblocked can be finished

  /** With `Steady` answers an unblocked operation moves on to a smaller rank, or becomes Ready. */
  predicate Moves(op: Operation, turn: Turn) {
    && turn.next.Continue?
    && Produced(turn.next.op) && !Blocked(turn.next.op)
    && Rank(turn.next.op) < Rank(op)
  }

  lemma {:induction false} HashIsHex(hash: Hash)
    ensures IsLowerHex32(HexOf(hash))
  {
    HexOfShape(hash);
  }

  lemma {:induction false} InclusionIsAccepted(op: Operation, hash: Hash, now: int)
    requires Produced(op) && op.state in {Submitting, OutcomeUnknown} && op.updatedAt == now
    ensures
      var confirming := Transition(op, Confirming, now);
      confirming.Some? && Included(confirming.value, HexOf(hash), HexOf(hash), 0, now).Some?
  {
    HashIsHex(hash);
    OrdinalCountsReceipts(op.receipts, op.effect);
  }

  /** An operation that is between effects is only blocked by an overflowing expiry. */
  lemma BetweenEffects(base: Operation, op: Operation, q: Operation)
    requires Ordinal(q.effect) == Ordinal(op.effect) + 1 && (q.state == Composing || q.state == Resolving)
    requires q.createdAt == op.createdAt && (NeedsSubmission(q) ==> !ExpiryOverflows(op))
    requires base.effect == op.effect
    ensures !Blocked(q) && Rank(q) < Rank(base)
  {
  }

  lemma {:induction false} IncludeTurnIs(op: Operation, confirming: Operation, q: Operation, hash: Hash, now: int)
    requires Transition(op, Confirming, now) == Some(confirming) && Valid(q)
    requires Included(confirming, HexOf(hash), HexOf(hash), 0, now) == Some(q)
    ensures IncludeTurn(op, Some(hash), Some(hash), Some(0), Some(now), Some(now), true)
         == Turn([Upsert(q)], Continue(q))
  {
  }

  lemma {:induction false} IncludedMoves(base: Operation, op: Operation, confirming: Operation, q: Operation,
                                         hash: string, now: int)
    requires NeedsSubmission(op) ==> !ExpiryOverflows(op)
    requires base.effect == op.effect && (op.state == Submitting || op.state == OutcomeUnknown)
    requires Transition(op, Confirming, now) == Some(confirming) && Included(confirming, hash, hash, 0, now) == Some(q)
    ensures !Blocked(q) && Rank(q) < Rank(base)
  {
    IncludedFields(op, confirming, q, hash, hash, 0, now, now);
    BetweenEffects(base, op, q);
  }

  lemma {:induction false} IncludeMoves(base: Operation, op: Operation, hash: Hash, now: int)
    requires Produced(op) && op.state in {Submitting, OutcomeUnknown} && op.updatedAt == now
    requires NeedsSubmission(op) ==> !ExpiryOverflows(op)
    requires base.effect == op.effect && base.state != RetryableFailure
    ensures Moves(base, IncludeTurn(op, Some(hash), Some(hash), Some(0), Some(now), Some(now), true))
  {
    InclusionIsAccepted(op, hash, now);
    var confirming := Transition(op, Confirming, now).value;
    var q := Included(confirming, HexOf(hash), HexOf(hash), 0, now).value;
    IncludedMoves(base, op, confirming, q, HexOf(hash), now);
    IncludedIsProduced(op, confirming, q, HexOf(hash), HexOf(hash), 0, now, now);
    IncludeTurnIs(op, confirming, q, hash, now);
  }

  /** Answers under which the clock stands still and everything is accepted. */
  predicate Cooperative(a: Answers, hash: Hash, now: int) {
    && a.funding.None? && a.submission == Accepted(hash, hash, 0)
    && Time(a, 1) == Time(a, 2) == Time(a, 3) == Time(a, 4) == Time(a, 5) == Some(now)
    && Write(a, 1) && Write(a, 2) && Write(a, 3)
  }

  lemma SteadyCooperates(op: Operation)
    ensures Cooperative(Steady(op), ZERO, op.updatedAt)
    ensures Time(Steady(op), 0) == Some(op.updatedAt) && Write(Steady(op), 0)
  {
  }

  lemma {:induction false} SubmitMoves(base: Operation, op: Operation, draft: string, a: Answers, hash: Hash)
    requires Produced(op) && op.state == Submitting && !ExpiryOverflows(op) && Cooperative(a, hash, op.updatedAt)
    requires base.effect == op.effect && base.state != RetryableFailure
    ensures Moves(base, SubmitTurn(op, draft, a))
  {
    IncludeMoves(base, op, hash, op.updatedAt);
  }

  lemma {:induction false} SubmittingMoves(base: Operation, op: Operation, draft: string, a: Answers, hash: Hash)
    requires Produced(op) && op.state == Proving && !ExpiryOverflows(op) && Cooperative(a, hash, op.updatedAt)
    requires base.effect == op.effect && base.state != RetryableFailure
    ensures Moves(base, SubmittingTurn(op, draft, a))
  {
    AdvanceIsProduced(op, Submitting, op.updatedAt);
    var submitting := Transition(op, Submitting, op.updatedAt).value;
    SubmitMoves(base, submitting, draft, a, hash);
    assert SubmittingTurn(op, draft, a) == After([Upsert(submitting)], SubmitTurn(submitting, draft, a));
  }

  lemma {:induction false} FundMoves(base: Operation, op: Operation, draft: string, a: Answers, hash: Hash)
    requires Produced(op) && op.state in {Funding, Proving} && !ExpiryOverflows(op)
    requires Cooperative(a, hash, op.updatedAt) && base.effect == op.effect && base.state != RetryableFailure
    ensures Moves(base, FundTurn(op, draft, a))
  {
    AdvanceIsProduced(op, Proving, op.updatedAt);
    var proving := Transition(op, Proving, op.updatedAt).value;
    SubmittingMoves(base, proving, draft, a, hash);
    assert FundTurn(op, draft, a) == After([Upsert(proving)], SubmittingTurn(proving, draft, a));
  }

  lemma {:induction false} PreparedMoves(op: Operation, prepared: Operation, draft: string, a: Answers)
    requires Produced(op) && !Blocked(op) && op.state == Composing && draft == SubmissionId(op.id, op.effect)
    requires a == Steady(op) && Prepare(op, a.compose.did, draft, op.updatedAt) == Some(prepared)
    ensures Produced(prepared) && Moves(op, FundTurn(prepared, draft, a))
  {
    SteadyCooperates(op);
    if op.effect == DeployContract {
      ComposedIsProduced(op, a.compose.did.value, op.updatedAt);
    } else {
      PreparedIsProduced(op, op.updatedAt);
    }
    FundMoves(op, prepared, draft, a, ZERO);
  }

  lemma {:induction false} ComposingMoves(op: Operation)
    requires Produced(op) && !Blocked(op) && op.state == Composing
    ensures Moves(op, ComposeTurn(op, Steady(op)))
  {
    var a, draft := Steady(op), SubmissionId(op.id, op.effect);
    SubmissionIdIsValid(op.id, op.effect);
    SteadyCooperates(op);
    var prepared := Prepare(op, a.compose.did, draft, op.updatedAt).value;
    PreparedMoves(op, prepared, draft, a);
    assert ComposeTurn(op, a) == After([Upsert(prepared)], FundTurn(prepared, draft, a));
  }

  lemma UnknownMoves(op: Operation)
    requires Produced(op) && !Blocked(op) && op.state == OutcomeUnknown
    ensures Moves(op, ReconcileTurn(op, Steady(op)))
  {
    var a := Steady(op);
    assert Time(a, 0) == Some(op.updatedAt) && Time(a, 1) == Some(op.updatedAt) && Write(a, 0);
    IncludeMoves(op, op, ZERO, op.updatedAt);
  }

  lemma PausedMoves(op: Operation)
    requires Produced(op) && !Blocked(op) && op.state == RetryableFailure
    ensures Moves(op, ResumeTurn(op, Steady(op)))
  {
    var a := Steady(op);
    assert Time(a, 0) == Some(op.updatedAt) && Write(a, 0);
    ResumeIsProduced(op, op.updatedAt);
    var q := Transition(op, op.resume.value, op.updatedAt).value;
    assert q.state == op.resume.value && q.effect == op.effect && q.createdAt == op.createdAt;
    assert ResumeTurn(op, a) == Turn([Upsert(q)], Continue(q));
  }

  lemma FundingMoves(op: Operation)
    requires Produced(op) && !Blocked(op) && op.state in {Funding, Proving}
    ensures Moves(op, ComposeTurn(op, Steady(op)))
  {
    SteadyCooperates(op);
    FundMoves(op, op, SubmissionId(op.id, op.effect), Steady(op), ZERO);
    assert ComposeTurn(op, Steady(op)) == FundTurn(op, SubmissionId(op.id, op.effect), Steady(op));
  }

  lemma IterationMoves(op: Operation)
    requires Produced(op) && !Blocked(op) && op.state !in {Resolving, Ready}
    ensures Moves(op, Iteration(op, Steady(op)))
  {
    if op.state == Composing {
      ComposingMoves(op);
    } else if op.state == OutcomeUnknown {
      UnknownMoves(op);
    } else if op.state == RetryableFailure {
      PausedMoves(op);
    } else {
      FundingMoves(op);
    }
  }

  lemma ResolvingFinishes(op: Operation)
    requires Produced(op) && op.state == Resolving
    ensures Iteration(op, Steady(op)).next.Return? && Iteration(op, Steady(op)).next.op.state == Ready
  {
    var a := Steady(op);
    assert Time(a, 0) == Some(op.updatedAt) && Write(a, 0);
    AdvanceIsProduced(op, Ready, op.updatedAt);
  }

  predicate Finishes(op: Operation, answers: seq<Answers>) {
    && !Exhausts(Iteration, op, answers)
    && Loop(op, answers).next.Return? && Loop(op, answers).next.op.state == Ready
  }

  lemma {:induction false} FinishingAnswers(op: Operation) returns (answers: seq<Answers>)
    requires Produced(op) && !Blocked(op)
    ensures |answers| <= Rank(op) && Finishes(op, answers)
    decreases Rank(op)
  {
    if op.state == Ready || op.state == Resolving {
      if op.state == Resolving {
        ResolvingFinishes(op);
      }
      answers := [Steady(op)];
    } else {
      IterationMoves(op);
      var rest := FinishingAnswers(Iteration(op, Steady(op)).next.op);
      answers := [Steady(op)] + rest;
      assert answers[1..] == rest;
    }
  }

  /** A single run of sixteen iterations is enough. */
  lemma {:induction false} OneRunSuffices(op: Operation) returns (answers: seq<Answers>)
    requires Produced(op) && !Blocked(op)
    ensures |answers| == ITERATIONS && Loop(op, answers).next.Return? && Loop(op, answers).next.op.state == Ready
  {
    var needed := FinishingAnswers(op);
    var slack := seq(ITERATIONS - |needed|, _ => Steady(op));
    answers := needed + slack;
    LoopIsDrive(op, needed);
    LoopIsDrive(op, answers);
    DriveIgnoresSlack(Iteration, op, needed, slack);
  }

  /** Runs of the full sixteen iterations, after which the operation is stored as Ready. */
  predicate BecomesReady(op: Operation, attempts: seq<Attempt>) {
    var stored := Stored(Some(op), Trace(Some(op), attempts));
    && (forall i :: 0 <= i < |attempts| ==> |attempts[i].answers| == ITERATIONS)
    && stored.Some? && stored.value.state == Ready
  }

  lemma {:induction false} OneRun(op: Operation, answers: seq<Answers>, attempt: Attempt)
    requires Produced(op) && op.state != Ready && |answers| == ITERATIONS
    requires Loop(op, answers).next.Return? && Loop(op, answers).next.op.state == Ready
    requires attempt.request.network != Offchain && attempt.answers == answers
    requires attempt.survives == |Loop(op, answers).io|
    ensures BecomesReady(op, [attempt])
  {
    var turn := Loop(op, answers);
    var st := Standing(Some(op), Ordinal(op.effect) + (if op.state == OutcomeUnknown then 1 else 0), false);
    LoopOk(st, op, answers);
    FinalStored(st, turn.io);
    assert [attempt][..0] == [];
    assert Trace(Some(op), [attempt][..0]) == [];
    assert Performed(Some(op), attempt) == turn.io;
    assert Trace(Some(op), [attempt]) == turn.io;
  }

  lemma {:induction false} BlockedStaysUnready(op: Operation, io: seq<Io>)
    requires Valid(op) && Blocked(op) && forall i :: 0 <= i < |io| ==> Idle(io[i])
    ensures Stored(Some(op), io).Some? && Stored(Some(op), io).value.state != Ready
  {
    IdleKeepsBlocked(op, io);
    BlockedIsNotReady(Stored(Some(op), io).value);
  }

  lemma {:induction false} BlockedIsNotReady(op: Operation)
    requires Valid(op) && Blocked(op)
    ensures op.state != Ready
  {
  }

  lemma {:induction false} UnblockedBecomesReady(op: Operation) returns (attempts: seq<Attempt>)
    requires Produced(op) && !Blocked(op)
    ensures BecomesReady(op, attempts)
  {
    if op.state == Ready {
      attempts := [];
      assert Trace(Some(op), []) == [];
    } else {
      var answers := OneRunSuffices(op);
      var request := Request(op.profile, op.network, None, None, false);
      var attempt := Attempt(request, answers, |Loop(op, answers).io|);
      OneRun(op, answers, attempt);
      attempts := [attempt];
    }
  }

  /** A stored operation can still become Ready, by some sequence of runs, exactly when it is not blocked. */
  lemma {:induction false} ReadyIsReachableIff(op: Operation)
    requires Produced(op)
    ensures (exists attempts :: BecomesReady(op, attempts)) <==> !Blocked(op)
  {
    if Blocked(op) {
      forall attempts ensures !BecomesReady(op, attempts) {
        BlockedIsForever(op, attempts);
        BlockedStaysUnready(op, Trace(Some(op), attempts));
      }
    } else {
      var attempts := UnblockedBecomesReady(op);
    }
  }
}
