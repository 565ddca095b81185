/** The resumable deployment workflow: one bounded loop over a durable operation. */
module DidDeployment {
  import opened Common
  import opened Codecs
  import opened DidOperation

  const ITERATIONS := 16
  const DEPLOYMENT_TTL_MILLIS := 3_600_000
  const MAX_U64 := 0xFFFF_FFFF_FFFF_FFFF

  type Hash = h: seq<Byte> | |h| == 32 witness seq(32, _ => 0)
  type Nonce = n: seq<Byte> | |n| == 16 witness seq(16, _ => 0)

  datatype Error =
    Unavailable | IndexerPending | InvalidRequest | Integrity | OperationFailed | Lifecycle | Transaction | Resolution

  datatype Composition = Planned(did: Option<Did>) | ComposerFailed(error: Error)
  datatype Submission = Accepted(transaction: Hash, block: Hash, height: int) | Lost | Refused(failure: Failure)
  datatype Status =
    | OnLedger(transaction: Option<Hash>, block: Option<Hash>, height: Option<int>)
    | StillOpen
    | RejectedOrExpired
    | StatusFailed
  datatype Resolved = Matching | Mismatching | ResolverDown | ResolverFailed

  /** What the ports answer during one iteration, and which clock readings and repository writes succeed. */
  datatype Answers = Answers(
    compose: Composition,
    funding: Option<Failure>,
    submission: Submission,
    status: Status,
    resolution: Resolved,
    times: seq<Option<int>>,
    writes: seq<bool>)

  datatype Request = Request(
    profile: string, network: Network, random: Option<Nonce>, now: Option<int>, write: bool)

  /** The durable writes and the calls on the submission port, in order. */
  datatype Io = Upsert(op: Operation) | Submit(op: Operation, draft: string) | Query(draft: string)

  datatype Next = Continue(op: Operation) | Return(op: Operation) | Fail(error: Error)
  datatype Turn = Turn(io: seq<Io>, next: Next)

  function Time(a: Answers, k: nat): Option<int> {
    if k < |a.times| then a.times[k] else None
  }

  function Write(a: Answers, k: nat): bool {
    k < |a.writes| && a.writes[k]
  }

  /** The repository stores a record only if the write succeeds and the record validates. */
  function Commit(op: Option<Operation>, ok: bool): Option<Operation> {
    if op.Some? && ok && Valid(op.value) then op else None
  }

  function Stop(error: Error): Turn {
    Turn([], Fail(error))
  }

  function After(io: seq<Io>, turn: Turn): Turn {
    turn.(io := io + turn.io)
  }

  // ---------------------------------------------------------------- one iteration

  function PauseTurn(op: Operation, failure: Failure, now: Option<int>, ok: bool): Turn {
    if now.None? then Stop(Unavailable)
    else
      var paused := Commit(Paused(op, failure, now.value), ok);
      if paused.None? then Stop(OperationFailed) else Turn([Upsert(paused.value)], Return(paused.value))
  }

  function ResolveTurn(op: Operation, a: Answers): Turn {
    if op.did.None? then Stop(Integrity)
    else match a.resolution
      case ResolverDown => PauseTurn(op, ResolutionUnavailable, Time(a, 0), Write(a, 0))
      case ResolverFailed => Stop(Resolution)
      case Mismatching => PauseTurn(op, ResolutionMismatch, Time(a, 0), Write(a, 0))
      case Matching =>
        if Time(a, 0).None? then Stop(Unavailable)
        else
          var ready := Commit(Transition(op, Ready, Time(a, 0).value), Write(a, 0));
          if ready.None? then Stop(OperationFailed) else Turn([Upsert(ready.value)], Return(ready.value))
  }

  /** Records inclusion evidence after moving to Confirming. */
  function IncludeTurn(op: Operation, transaction: Option<Hash>, block: Option<Hash>, height: Option<int>,
                       confirmed: Option<int>, now: Option<int>, ok: bool): Turn
  {
    if confirmed.None? then Stop(Unavailable)
    else
      var confirming := Transition(op, Confirming, confirmed.value);
      if confirming.None? then Stop(OperationFailed)
      else if transaction.None? || block.None? || height.None? then Stop(Integrity)
      else if now.None? then Stop(Unavailable)
      else
        var included := Commit(Included(confirming.value, HexOf(transaction.value), HexOf(block.value),
                                        height.value, now.value), ok);
        if included.None? then Stop(OperationFailed) else Turn([Upsert(included.value)], Continue(included.value))
  }

  function ReconcileTurn(op: Operation, a: Answers): Turn {
    if op.submissionId.None? then Stop(Integrity)
    else
      var query := [Query(op.submissionId.value)];
      match a.status
      case StatusFailed => Turn(query, Fail(Transaction))
      case StillOpen => Turn(query, Return(op))
      case RejectedOrExpired =>
        var paused := PauseTurn(op, SubmissionRejected, Time(a, 0), Write(a, 0));
        After(query, if paused.next.Return? then paused.(next := Continue(paused.next.op)) else paused)
      case OnLedger(transaction, block, height) =>
        After(query, IncludeTurn(op, transaction, block, height, Time(a, 0), Time(a, 1), Write(a, 0)))
  }

  function ResumeTurn(op: Operation, a: Answers): Turn {
    if op.resume.None? then Stop(Integrity)
    else if Time(a, 0).None? then Stop(Unavailable)
    else
      var resumed := Commit(Transition(op, op.resume.value, Time(a, 0).value), Write(a, 0));
      if resumed.None? then Stop(OperationFailed) else Turn([Upsert(resumed.value)], Continue(resumed.value))
  }

  function UnknownTurn(op: Operation, now: Option<int>, ok: bool): Turn {
    if now.None? then Stop(Unavailable)
    else
      var unknown := Commit(Unknown(op, now.value), ok);
      if unknown.None? then Stop(OperationFailed) else Turn([Upsert(unknown.value)], Return(unknown.value))
  }

  /** The submission itself, for an operation already stored as Submitting. */
  function SubmitTurn(op: Operation, draft: string, a: Answers): Turn {
    if op.createdAt + DEPLOYMENT_TTL_MILLIS > MAX_U64 then Stop(InvalidRequest)
    else if Time(a, 3).None? then Stop(Unavailable)
    else After([Submit(op, draft)],
      match a.submission
      case Lost => UnknownTurn(op, Time(a, 4), Write(a, 3))
      case Refused(failure) => PauseTurn(op, failure, Time(a, 4), Write(a, 3))
      case Accepted(transaction, block, height) =>
        IncludeTurn(op, Some(transaction), Some(block), Some(height), Time(a, 4), Time(a, 5), Write(a, 3)))
  }

  function SubmittingTurn(op: Operation, draft: string, a: Answers): Turn {
    if Time(a, 2).None? then Stop(Unavailable)
    else
      var submitting := Commit(Transition(op, Submitting, Time(a, 2).value), Write(a, 2));
      if submitting.None? then Stop(OperationFailed)
      else After([Upsert(submitting.value)], SubmitTurn(submitting.value, draft, a))
  }

  function ProvingTurn(op: Operation, draft: string, a: Answers): Turn {
    if Time(a, 1).None? then Stop(Unavailable)
    else
      var proving := Commit(Transition(op, Proving, Time(a, 1).value), Write(a, 1));
      if proving.None? then Stop(OperationFailed)
      else After([Upsert(proving.value)], SubmittingTurn(proving.value, draft, a))
  }

  function FundTurn(op: Operation, draft: string, a: Answers): Turn {
    match a.funding
    case Some(failure) => PauseTurn(op, failure, Time(a, 1), Write(a, 1))
    case None => ProvingTurn(op, draft, a)
  }

  /** Records the composed effect, for an operation that is still Composing. */
  function Prepare(op: Operation, did: Option<Did>, draft: string, now: int): Option<Operation> {
    if op.effect == DeployContract then
      if did.None? then None else Composed(op, did.value, draft, now)
    else PreparedEffect(op, draft, now)
  }

  function RecordTurn(op: Operation, did: Option<Did>, draft: string, a: Answers): Turn {
    if (op.effect == DeployContract) == did.None? then Stop(Integrity)
    else if Time(a, 0).None? then Stop(Unavailable)
    else
      var prepared := Commit(Prepare(op, did, draft, Time(a, 0).value), Write(a, 0));
      if prepared.None? then Stop(OperationFailed)
      else After([Upsert(prepared.value)], FundTurn(prepared.value, draft, a))
  }

  function PlannedTurn(op: Operation, did: Option<Did>, a: Answers): Turn {
    var draft := SubmissionId(op.id, op.effect);
    if op.state == Composing then RecordTurn(op, did, draft, a)
    else if op.submissionId != Some(draft) || (op.effect == DeployContract && op.did != did) then Stop(Integrity)
    else FundTurn(op, draft, a)
  }

  function ComposeTurn(op: Operation, a: Answers): Turn {
    match a.compose
    case ComposerFailed(error) =>
      if error == IndexerPending then Turn([], Return(op))
      else if error == Unavailable then PauseTurn(op, CompositionUnavailable, Time(a, 0), Write(a, 0))
      else Stop(error)
    case Planned(did) => PlannedTurn(op, did, a)
  }

  function Iteration(op: Operation, a: Answers): Turn {
    match op.state
    case Ready => Turn([], Return(op))
    case Resolving => ResolveTurn(op, a)
    case OutcomeUnknown => ReconcileTurn(op, a)
    case RetryableFailure => ResumeTurn(op, a)
    case _ => ComposeTurn(op, a)
  }

  // ----------------------------------------------------------------------- one run

  /** The loop: each element of `answers` serves one iteration, and running out of them is the trailing error. */
  function Loop(op: Operation, answers: seq<Answers>): Turn
    decreases |answers|
  {
    if answers == [] then Stop(Integrity)
    else
      var turn := Iteration(op, answers[0]);
      if turn.next.Continue? then After(turn.io, Loop(turn.next.op, answers[1..])) else turn
  }

  function FreshId(random: Nonce): string {
    "did-deployment-" + HexOf(random)
  }

  function StartTurn(request: Request): Turn {
    if request.random.None? || request.now.None? then Stop(Unavailable)
    else
      var op := Commit(NewOperation(FreshId(request.random.value), request.profile, request.network,
                                    request.now.value), request.write);
      if op.None? then Stop(OperationFailed) else Turn([Upsert(op.value)], Continue(op.value))
  }

  function BeginTurn(request: Request, answers: seq<Answers>): Turn {
    var start := StartTurn(request);
    if start.next.Continue? then After(start.io, Loop(start.next.op, answers)) else start
  }

  /** `run`, given the one operation stored for this profile and network, if any. */
  function Run(stored: Option<Operation>, request: Request, answers: seq<Answers>): Turn {
    if request.network == Offchain then Stop(InvalidRequest)
    else if stored.Some? then
      if stored.value.state == Ready then Turn([], Return(stored.value)) else Loop(stored.value, answers)
    else BeginTurn(request, answers)
  }

  /** What the repository holds after a run of input and output. */
  function Stored(stored: Option<Operation>, io: seq<Io>): Option<Operation> {
    if io == [] then stored
    else if io[|io| - 1].Upsert? then Some(io[|io| - 1].op)
    else Stored(stored, io[..|io| - 1])
  }
}
