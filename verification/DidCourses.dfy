/** What an iteration of the deployment workflow does for each answer, when clock and repository do not fail. */
module DidCourses {
  import opened Common
  import opened Codecs
  import opened DidOperation
  import opened DidDeployment
  import opened DidOutcomes

  /** The clock never fails or runs backwards, and every write succeeds. */
  predicate Prompt(a: Answers, since: int) {
    && |a.times| == 6 && |a.writes| == 4
    && (forall k :: 0 <= k < 6 ==> a.times[k].Some? && since <= a.times[k].value)
    && (forall i, k :: 0 <= i < k < 6 ==> a.times[i].value <= a.times[k].value)
    && (forall k :: 0 <= k < 4 ==> a.writes[k])
  }

  datatype Mark = Wrote(phase: Phase) | Called | Asked
  datatype End = Stopped(error: Error) | Answered | Again
  datatype Course = Course(marks: seq<Mark>, end: End)

  function MarkOf(e: Io): Mark {
    match e
    case Upsert(op) => Wrote(op.state)
    case Submit(_, _) => Called
    case Query(_) => Asked
  }

  function Marks(io: seq<Io>): seq<Mark> {
    seq(|io|, i requires 0 <= i < |io| => MarkOf(io[i]))
  }

  function CourseOf(turn: Turn): Course {
    Course(Marks(turn.io), match turn.next
                           case Continue(_) => Again
                           case Return(_) => Answered
                           case Fail(error) => Stopped(error))
  }

  function Then(mark: Mark, course: Course): Course {
    course.(marks := [mark] + course.marks)
  }

  const PAUSED := Course([Wrote(RetryableFailure)], Answered)

  /** The phase that inclusion of the current effect leads to. */
  function PhaseAfter(effect: Effect): Phase {
    if effect == AddAssertionRelationship then Resolving else Composing
  }

  // ------------------------------------------------------------------------- the table

  function SentCourse(op: Operation, a: Answers): Course {
    match a.submission
    case Lost => Course([Wrote(OutcomeUnknown)], Answered)
    case Refused(_) => PAUSED
    case Accepted(_, _, _) => Course([Wrote(PhaseAfter(op.effect))], Again)
  }

  function PlannedCourse(op: Operation, a: Answers): Course {
    if a.funding.Some? then PAUSED
    else Then(Wrote(Proving), Then(Wrote(Submitting),
      if op.createdAt + 3_600_000 > 0xFFFF_FFFF_FFFF_FFFF then Course([], Stopped(InvalidRequest))
      else Then(Called, SentCourse(op, a))))
  }

  function ComposedCourse(op: Operation, did: Option<Did>, a: Answers): Course {
    if op.state == Composing then
      if did.Some? != (op.effect == DeployContract) then Course([], Stopped(Integrity))
      else if did.Some? && did.value.network != op.network then Course([], Stopped(OperationFailed))
      else Then(Wrote(Funding), PlannedCourse(op, a))
    else if op.effect == DeployContract && op.did != did then Course([], Stopped(Integrity))
    else if op.state == Submitting && a.funding.None? then Course([], Stopped(OperationFailed))
    else PlannedCourse(op, a)
  }

  function StatusCourse(op: Operation, status: Status): Course {
    match status
    case StatusFailed => Course([], Stopped(Transaction))
    case StillOpen => Course([], Answered)
    case RejectedOrExpired => Course([], Stopped(OperationFailed))
    case OnLedger(transaction, block, height) =>
      if transaction.Some? && block.Some? && height.Some? then Course([Wrote(PhaseAfter(op.effect))], Again)
      else Course([], Stopped(Integrity))
  }

  function Expected(op: Operation, a: Answers): Course {
    match op.state
    case Ready => Course([], Answered)
    case Resolving => (
      match a.resolution
      case Matching => Course([Wrote(Ready)], Answered)
      case ResolverFailed => Course([], Stopped(Resolution))
      case _ => PAUSED)
    case OutcomeUnknown => Then(Asked, StatusCourse(op, a.status))
    case RetryableFailure => Course(if op.resume.Some? then [Wrote(op.resume.value)] else [], Again)
    case _ => (
      match a.compose
      case ComposerFailed(error) =>
        if error == Unavailable then PAUSED
        else Course([], if error == IndexerPending then Answered else Stopped(error))
      case Planned(did) => ComposedCourse(op, did, a))
  }

  // -------------------------------------------------------------------------- the proof

  lemma AfterCourse(e: Io, turn: Turn)
    ensures CourseOf(After([e], turn)) == Then(MarkOf(e), CourseOf(turn))
  {
    assert Marks([e] + turn.io) == [MarkOf(e)] + Marks(turn.io);
  }

  lemma OneCourse(q: Operation, next: Next)
    ensures CourseOf(Turn([Upsert(q)], next)).marks == [Wrote(q.state)]
  {
  }

  lemma PauseCourse(op: Operation, failure: Failure, a: Answers, k: nat, i: nat)
    requires Produced(op) && op.state in {Composing, Funding, Proving, Submitting, Resolving}
    requires Prompt(a, op.updatedAt) && k < 6 && i < 4
    ensures CourseOf(PauseTurn(op, failure, Time(a, k), Write(a, i))) == PAUSED
  {
    PausedIsProduced(op, failure, Time(a, k).value);
    var turn := PauseTurn(op, failure, Time(a, k), Write(a, i));
    OneCourse(turn.next.op, turn.next);
  }

  lemma {:induction false} HashIsLowerHex(hash: Hash)
    ensures IsLowerHex32(HexOf(hash))
  {
    HexOfShape(hash);
  }

  lemma {:induction false} IncludeWrites(op: Operation, confirming: Operation, q: Operation, t: Hash, b: Hash,
                                         height: int, i: int, k: int)
    requires Transition(op, Confirming, i) == Some(confirming) && Valid(q)
    requires Included(confirming, HexOf(t), HexOf(b), height, k) == Some(q)
    ensures IncludeTurn(op, Some(t), Some(b), Some(height), Some(i), Some(k), true) == Turn([Upsert(q)], Continue(q))
  {
  }

  lemma {:induction false} IncludeCourse(op: Operation, confirming: Operation, q: Operation, t: Hash, b: Hash,
                                         height: int, i: int, k: int)
    requires Produced(op) && op.state in {Submitting, OutcomeUnknown}
    requires Transition(op, Confirming, i) == Some(confirming)
    requires Included(confirming, HexOf(t), HexOf(b), height, k) == Some(q)
    ensures CourseOf(IncludeTurn(op, Some(t), Some(b), Some(height), Some(i), Some(k), true))
         == Course([Wrote(PhaseAfter(op.effect))], Again)
  {
    IncludedIsProduced(op, confirming, q, HexOf(t), HexOf(b), height, i, k);
    IncludedFields(op, confirming, q, HexOf(t), HexOf(b), height, i, k);
    IncludeWrites(op, confirming, q, t, b, height, i, k);
    OneCourse(q, Continue(q));
  }

  lemma {:induction false} InclusionCourse(op: Operation, t: Hash, b: Hash, height: int, i: int, k: int)
    requires Produced(op) && op.state in {Submitting, OutcomeUnknown} && op.updatedAt <= i <= k
    ensures CourseOf(IncludeTurn(op, Some(t), Some(b), Some(height), Some(i), Some(k), true))
         == Course([Wrote(PhaseAfter(op.effect))], Again)
  {
    HashIsLowerHex(t);
    HashIsLowerHex(b);
    OrdinalCountsReceipts(op.receipts, op.effect);
    var confirming := op.(state := Confirming, updatedAt := i, resume := None, failure := None);
    IncludeCourse(op, confirming, Included(confirming, HexOf(t), HexOf(b), height, k).value, t, b, height, i, k);
  }

  lemma {:induction false} SubmitCourse(op: Operation, draft: string, a: Answers)
    requires Produced(op) && op.state == Submitting && Prompt(a, op.createdAt) && op.updatedAt <= a.times[4].value
    requires op.createdAt + DEPLOYMENT_TTL_MILLIS <= MAX_U64
    ensures CourseOf(SubmitTurn(op, draft, a)) == Then(Called, SentCourse(op, a))
  {
    var e := Submit(op, draft);
    match a.submission {
      case Lost =>
        UnknownIsProduced(op, Time(a, 4).value);
        AfterCourse(e, UnknownTurn(op, Time(a, 4), Write(a, 3)));
      case Refused(failure) =>
        PausedIsProduced(op, failure, Time(a, 4).value);
        AfterCourse(e, PauseTurn(op, failure, Time(a, 4), Write(a, 3)));
      case Accepted(t, b, height) =>
        InclusionCourse(op, t, b, height, Time(a, 4).value, Time(a, 5).value);
        AfterCourse(e, IncludeTurn(op, Some(t), Some(b), Some(height), Time(a, 4), Time(a, 5), Write(a, 3)));
    }
  }

  lemma {:induction false} SubmittingCourse(op: Operation, draft: string, a: Answers)
    requires Produced(op) && op.state == Proving && Prompt(a, op.createdAt) && op.updatedAt <= a.times[2].value
    ensures CourseOf(SubmittingTurn(op, draft, a)) == Then(Wrote(Submitting),
      if op.createdAt + DEPLOYMENT_TTL_MILLIS > MAX_U64 then Course([], Stopped(InvalidRequest))
      else Then(Called, SentCourse(op, a)))
  {
    AdvanceIsProduced(op, Submitting, Time(a, 2).value);
    var q := Transition(op, Submitting, Time(a, 2).value).value;
    if op.createdAt + DEPLOYMENT_TTL_MILLIS <= MAX_U64 {
      SubmitCourse(q, draft, a);
    }
    AfterCourse(Upsert(q), SubmitTurn(q, draft, a));
  }

  lemma {:induction false} FundCourse(op: Operation, draft: string, a: Answers)
    requires Produced(op) && op.state in {Funding, Proving} && Prompt(a, op.createdAt)
    requires op.updatedAt <= a.times[1].value
    ensures CourseOf(FundTurn(op, draft, a)) == PlannedCourse(op, a)
  {
    if a.funding.Some? {
      PausedIsProduced(op, a.funding.value, Time(a, 1).value);
      var turn := PauseTurn(op, a.funding.value, Time(a, 1), Write(a, 1));
      OneCourse(turn.next.op, turn.next);
    } else {
      AdvanceIsProduced(op, Proving, Time(a, 1).value);
      var q := Transition(op, Proving, Time(a, 1).value).value;
      SubmittingCourse(q, draft, a);
      AfterCourse(Upsert(q), SubmittingTurn(q, draft, a));
    }
  }

  /** Recording a fitting plan succeeds. */
  lemma {:induction false} PrepareSucceeds(op: Operation, did: Option<Did>, now: int)
    requires Produced(op) && op.state == Composing && op.updatedAt <= now
    requires did.Some? == (op.effect == DeployContract) && (did.Some? ==> did.value.network == op.network)
    ensures var q := Prepare(op, did, SubmissionId(op.id, op.effect), now);
            && q.Some? && Produced(q.value) && q.value.state == Funding && q.value.updatedAt == now
            && q.value.createdAt == op.createdAt && q.value.effect == op.effect
  {
    SubmissionIdIsValid(op.id, op.effect);
    if op.effect == DeployContract {
      ComposedIsProduced(op, did.value, now);
    } else {
      PreparedIsProduced(op, now);
    }
  }

  lemma {:induction false} RecordCourse(op: Operation, did: Option<Did>, a: Answers)
    requires Produced(op) && op.state == Composing && Prompt(a, op.updatedAt)
    ensures CourseOf(PlannedTurn(op, did, a)) == ComposedCourse(op, did, a)
  {
    var draft := SubmissionId(op.id, op.effect);
    if did.Some? == (op.effect == DeployContract) && (did.Some? ==> did.value.network == op.network) {
      PrepareSucceeds(op, did, Time(a, 0).value);
      var q := Prepare(op, did, draft, Time(a, 0).value).value;
      FundCourse(q, draft, a);
      AfterCourse(Upsert(q), FundTurn(q, draft, a));
    }
  }

  lemma {:induction false} PlanCourse(op: Operation, did: Option<Did>, a: Answers)
    requires Produced(op) && op.state in {Funding, Proving, Submitting} && Prompt(a, op.updatedAt)
    ensures CourseOf(PlannedTurn(op, did, a)) == ComposedCourse(op, did, a)
  {
    var draft := SubmissionId(op.id, op.effect);
    if op.effect != DeployContract || op.did == did {
      if op.state != Submitting {
        FundCourse(op, draft, a);
      } else if a.funding.Some? {
        PauseCourse(op, a.funding.value, a, 1, 1);
      }
    }
  }

  lemma {:induction false} ResolveCourse(op: Operation, a: Answers)
    requires Produced(op) && op.state == Resolving && Prompt(a, op.updatedAt)
    ensures CourseOf(ResolveTurn(op, a)) == Expected(op, a)
  {
    if a.resolution.Matching? {
      AdvanceIsProduced(op, Ready, Time(a, 0).value);
      var turn := ResolveTurn(op, a);
      OneCourse(turn.next.op, turn.next);
    } else if a.resolution.ResolverDown? {
      PauseCourse(op, ResolutionUnavailable, a, 0, 0);
    } else if a.resolution.Mismatching? {
      PauseCourse(op, ResolutionMismatch, a, 0, 0);
    }
  }

  lemma {:induction false} ReconcileCourse(op: Operation, a: Answers)
    requires Produced(op) && op.state == OutcomeUnknown && Prompt(a, op.updatedAt)
    ensures CourseOf(ReconcileTurn(op, a)) == Expected(op, a)
  {
    var e, s := Query(op.submissionId.value), a.status;
    AfterCourse(e, PauseTurn(op, SubmissionRejected, Time(a, 0), Write(a, 0)));
    if s.OnLedger? {
      if s.transaction.Some? && s.block.Some? && s.height.Some? {
        InclusionCourse(op, s.transaction.value, s.block.value, s.height.value, Time(a, 0).value, Time(a, 1).value);
      }
      AfterCourse(e, IncludeTurn(op, s.transaction, s.block, s.height, Time(a, 0), Time(a, 1), Write(a, 0)));
    }
  }

  lemma {:induction false} ResumeCourse(op: Operation, a: Answers)
    requires Produced(op) && op.state == RetryableFailure && Prompt(a, op.updatedAt)
    ensures CourseOf(ResumeTurn(op, a)) == Expected(op, a)
  {
    ResumeIsProduced(op, Time(a, 0).value);
    var turn := ResumeTurn(op, a);
    OneCourse(turn.next.op, turn.next);
  }

  lemma {:induction false} ComposeCourse(op: Operation, a: Answers)
    requires Produced(op) && op.state in {Composing, Funding, Proving, Submitting} && Prompt(a, op.updatedAt)
    ensures CourseOf(ComposeTurn(op, a)) == Expected(op, a)
  {
    if a.compose.ComposerFailed? {
      PauseCourse(op, CompositionUnavailable, a, 0, 0);
    } else if op.state == Composing {
      RecordCourse(op, a.compose.did, a);
    } else {
      PlanCourse(op, a.compose.did, a);
    }
  }

  /**
   Whatever the ports answer, an iteration over a stored operation writes, calls and asks what the table
   says, and ends as it says, if neither the clock nor the repository fails.
   */
  lemma {:induction false} IterationCourse(op: Operation, a: Answers)
    requires Produced(op) && Prompt(a, op.updatedAt)
    ensures CourseOf(Iteration(op, a)) == Expected(op, a)
  {
    match op.state
    case Ready =>
    case Resolving => ResolveCourse(op, a);
    case OutcomeUnknown => ReconcileCourse(op, a);
    case RetryableFailure => ResumeCourse(op, a);
    case _ => ComposeCourse(op, a);
  }

  /** Which requests get past the first look at them, and what the others are answered. */
  lemma {:induction false} RunBegins(stored: Option<Operation>, request: Request, answers: seq<Answers>)
    ensures request.network == Offchain ==> Run(stored, request, answers) == Stop(InvalidRequest)
    ensures request.network != Offchain && stored.Some? ==>
              Run(stored, request, answers) ==
              if stored.value.state == Ready then Turn([], Return(stored.value)) else Loop(stored.value, answers)
    ensures request.network != Offchain && stored.None? ==>
              var turn := Run(stored, request, answers);
              if request.random.None? || request.now.None? then turn == Stop(Unavailable)
              else if request.now.value == 0 || !request.write then turn == Stop(OperationFailed)
              else turn.io != [] && turn.io[0].Upsert? && Created(turn.io[0].op, request)
  {
  }
}
