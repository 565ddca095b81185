/** When the deployment loop stops, and which stored operations can still become Ready. */
module DidProgress {
  import opened Common
  import opened Codecs
  import opened DidOperation
  import opened DidDeployment

  // ---------------------------------------------------------------------- termination

  /** A retryable failure that resumes as itself: valid to store, never written by the workflow. */
  predicate SelfResuming(op: Operation) {
    op.state == RetryableFailure && op.resume == Some(RetryableFailure)
  }

  /** How many iterations an operation can still take. */
  function Rank(op: Operation): (r: int)
    ensures 1 <= r <= 10
  {
    EFFECTS + 1 - Ordinal(op.effect) + if op.state == RetryableFailure then 1 else 0
  }

  type Stepper = (Operation, Answers) -> Turn

  /** The loop uses up every iteration without returning, so the trailing error is what it answers. */
  predicate Exhausts(step: Stepper, op: Operation, answers: seq<Answers>)
    decreases |answers|
  {
    answers == [] ||
    (step(op, answers[0]).next.Continue? && Exhausts(step, step(op, answers[0]).next.op, answers[1..]))
  }

  /** The loop over an arbitrary iteration body. */
  function Drive(step: Stepper, op: Operation, answers: seq<Answers>): Turn
    decreases |answers|
  {
    if answers == [] then Stop(Integrity)
    else
      var turn := step(op, answers[0]);
      if turn.next.Continue? then After(turn.io, Drive(step, turn.next.op, answers[1..])) else turn
  }

  lemma {:induction false} LoopIsDrive(op: Operation, answers: seq<Answers>)
    ensures Loop(op, answers) == Drive(Iteration, op, answers)
    decreases |answers|
  {
    if answers != [] && Iteration(op, answers[0]).next.Continue? {
      LoopIsDrive(Iteration(op, answers[0]).next.op, answers[1..]);
    }
  }

  /** A loop that stops by itself is not changed by allowing more iterations. */
  lemma {:induction false} DriveIgnoresSlack(step: Stepper, op: Operation, answers: seq<Answers>, more: seq<Answers>)
    requires !Exhausts(step, op, answers)
    ensures Drive(step, op, answers + more) == Drive(step, op, answers)
    decreases |answers|
  {
    var turn := step(op, answers[0]);
    assert (answers + more)[0] == answers[0];
    if turn.next.Continue? {
      DriveIgnoresSlack(step, turn.next.op, answers[1..], more);
      assert (answers + more)[1..] == answers[1..] + more;
    }
  }

  predicate Descends(op: Operation, turn: Turn) {
    turn.next.Continue? ==>
      Valid(turn.next.op) && turn.next.op.state != RetryableFailure && Rank(turn.next.op) < Rank(op)
  }

  lemma IncludeDescends(op: Operation, transaction: Option<Hash>, block: Option<Hash>, height: Option<int>,
                        confirmed: Option<int>, now: Option<int>, ok: bool)
    requires op.state != RetryableFailure
    ensures Descends(op, IncludeTurn(op, transaction, block, height, confirmed, now, ok))
  {
    var turn := IncludeTurn(op, transaction, block, height, confirmed, now, ok);
    if turn.next.Continue? {
      IncludedFields(op, Transition(op, Confirming, confirmed.value).value, turn.next.op, HexOf(transaction.value),
                     HexOf(block.value), height.value, confirmed.value, now.value);
    }
  }

  lemma SubmitDescends(op: Operation, base: Operation, draft: string, a: Answers)
    requires op.state == Submitting && op.effect == base.effect && base.state != RetryableFailure
    ensures Descends(base, SubmitTurn(op, draft, a))
  {
    if a.submission.Accepted? {
      IncludeDescends(op, Some(a.submission.transaction), Some(a.submission.block), Some(a.submission.height),
                      Time(a, 4), Time(a, 5), Write(a, 3));
    }
  }

  lemma FundDescends(op: Operation, base: Operation, draft: string, a: Answers)
    requires op.effect == base.effect && base.state != RetryableFailure
    ensures Descends(base, FundTurn(op, draft, a))
  {
    if FundTurn(op, draft, a).next.Continue? {
      var proving := Transition(op, Proving, Time(a, 1).value).value;
      var submitting := Transition(proving, Submitting, Time(a, 2).value).value;
      SubmitDescends(submitting, base, draft, a);
    }
  }

  lemma ComposeDescends(op: Operation, a: Answers)
    requires op.state != RetryableFailure
    ensures Descends(op, ComposeTurn(op, a))
  {
    if ComposeTurn(op, a).next.Continue? {
      var did, draft := a.compose.did, SubmissionId(op.id, op.effect);
      if op.state == Composing {
        FundDescends(Prepare(op, did, draft, Time(a, 0).value).value, op, draft, a);
      } else {
        FundDescends(op, op, draft, a);
      }
    }
  }

  lemma ReconcileDescends(op: Operation, a: Answers)
    requires op.state == OutcomeUnknown
    ensures Descends(op, ReconcileTurn(op, a))
  {
    if a.status.OnLedger? {
      IncludeDescends(op, a.status.transaction, a.status.block, a.status.height, Time(a, 0), Time(a, 1), Write(a, 0));
    }
  }

  /** Every iteration that goes round again has strictly fewer effects left, or has just left a pause. */
  lemma IterationDescends(op: Operation, a: Answers)
    requires Valid(op) && !SelfResuming(op)
    ensures Descends(op, Iteration(op, a))
  {
    if op.state == OutcomeUnknown {
      ReconcileDescends(op, a);
    } else if op.state == RetryableFailure {
    } else if op.state != Ready && op.state != Resolving {
      ComposeDescends(op, a);
    }
  }

  lemma {:induction false} RankBoundsIterations(op: Operation, answers: seq<Answers>)
    requires Valid(op) && !SelfResuming(op) && Exhausts(Iteration, op, answers)
    ensures |answers| < Rank(op)
    decreases |answers|
  {
    if answers != [] {
      IterationDescends(op, answers[0]);
      RankBoundsIterations(Iteration(op, answers[0]).next.op, answers[1..]);
    }
  }

  function Steady(op: Operation): Answers {
    Answers(Planned(if op.effect == DeployContract then Some(if op.did.Some? then op.did.value else Did(op.network, ""))
                    else None),
            None, Accepted(ZERO, ZERO, 0), OnLedger(Some(ZERO), Some(ZERO), Some(0)), Matching,
            seq(6, _ => Some(op.updatedAt)), seq(4, _ => true))
  }

  const ZERO: Hash := seq(32, _ => 0)

  lemma {:induction false} SelfResumingExhausts(op: Operation, n: nat)
    requires Valid(op) && SelfResuming(op)
    ensures Exhausts(Iteration, op, seq(n, _ => Steady(op)))
  {
    var answers := seq(n, _ => Steady(op));
    if n > 0 {
      assert Transition(op, RetryableFailure, op.updatedAt) == Some(op);
      assert Iteration(op, Steady(op)).next == Continue(op);
      SelfResumingExhausts(op, n - 1);
      assert answers[1..] == seq(n - 1, _ => Steady(op));
    }
  }

  /**
   The trailing error after sixteen iterations is reachable from a valid stored operation exactly when that
   operation is a retryable failure resuming as itself.
   */
  lemma {:induction false} TrailingErrorIff(op: Operation)
    requires Valid(op)
    ensures (exists answers :: |answers| == ITERATIONS && Exhausts(Iteration, op, answers)) <==> SelfResuming(op)
  {
    if SelfResuming(op) {
      SelfResumingExhausts(op, ITERATIONS);
      assert |seq(ITERATIONS, _ => Steady(op))| == ITERATIONS;
    } else {
      forall answers | |answers| == ITERATIONS ensures !Exhausts(Iteration, op, answers) {
        if Exhausts(Iteration, op, answers) {
          RankBoundsIterations(op, answers);
        }
      }
    }
  }

  /** From every record the workflow stores, ten of the sixteen iterations always suffice. */
  lemma {:induction false} TenIterationsSuffice(op: Operation, answers: seq<Answers>)
    requires Produced(op) && |answers| == ITERATIONS
    ensures Loop(op, answers) == Loop(op, answers[..10]) && !Exhausts(Iteration, op, answers[..10])
  {
    if Exhausts(Iteration, op, answers[..10]) {
      RankBoundsIterations(op, answers[..10]);
    }
    LoopIsDrive(op, answers);
    LoopIsDrive(op, answers[..10]);
    DriveIgnoresSlack(Iteration, op, answers[..10], answers[10..]);
    assert answers[..10] + answers[10..] == answers;
  }
}
