/** Why the deployment workflow stores what it stores: every write is accounted for by what a port answered. */
module DidOutcomes {
  import opened Common
  import opened Codecs
  import opened DidOperation
  import opened DidDeployment
  import opened DidHistory
  import opened DidTheorems

  // ------------------------------------------------------------------- accounts of one write

  datatype Evidence = Evidence(transaction: Hash, block: Hash, height: int)

  /** The inclusion that the submission or the status port reported, whichever `p` had asked. */
  function Reported(p: Operation, a: Answers): Option<Evidence> {
    match p.state
    case Submitting =>
      if a.submission.Accepted? then Some(Evidence(a.submission.transaction, a.submission.block, a.submission.height))
      else None
    case OutcomeUnknown =>
      if a.status.OnLedger? && a.status.transaction.Some? && a.status.block.Some? && a.status.height.Some?
      then Some(Evidence(a.status.transaction.value, a.status.block.value, a.status.height.value))
      else None
    case _ => None
  }

  /** `q` is `p` but for the phase, what it resumes as, the failure and the time. */
  predicate Moved(p: Operation, q: Operation) {
    q == p.(state := q.state, resume := q.resume, failure := q.failure, updatedAt := q.updatedAt)
  }

  predicate Quiet(q: Operation) {
    q.resume.None? && q.failure.None?
  }

  /** The composer's plan is for `p`, and it could be paid for. */
  predicate Funded(p: Operation, a: Answers) {
    a.compose.Planned? && a.funding.None? && (p.effect == DeployContract ==> a.compose.did == p.did)
  }

  /** A port answered `failure`, or something that stands for it, to an operation in the phase of `p`. */
  predicate Fails(p: Operation, a: Answers, failure: Failure) {
    match p.state
    case Resolving =>
      || (a.resolution.ResolverDown? && failure == ResolutionUnavailable)
      || (a.resolution.Mismatching? && failure == ResolutionMismatch)
    case Composing => a.compose == ComposerFailed(Unavailable) && failure == CompositionUnavailable
    case Funding => FailsUnsent(a, failure)
    case Proving => FailsUnsent(a, failure)
    case Submitting => FailsUnsent(a, failure) || (Funded(p, a) && a.submission == Refused(failure))
    case _ => false
  }

  predicate FailsUnsent(a: Answers, failure: Failure) {
    || (a.compose == ComposerFailed(Unavailable) && failure == CompositionUnavailable)
    || (a.compose.Planned? && a.funding == Some(failure))
  }

  /** `q` is `p` with its effect planned under the effect's own id; a deployment takes the plan's DID. */
  predicate Plans(p: Operation, q: Operation, a: Answers) {
    && p.state == Composing && a.compose.Planned? && a.compose.did.Some? == (p.effect == DeployContract)
    && q == p.(state := Funding, submissionId := Some(SubmissionId(p.id, p.effect)), updatedAt := q.updatedAt,
               did := if p.effect == DeployContract then a.compose.did else p.did)
  }

  /** `q` is `p` with the reported inclusion on record, at the next effect. */
  predicate Records(p: Operation, q: Operation, a: Answers) {
    var found, effect := Reported(p, a), EffectAt(Ordinal(p.effect) + 1);
    && found.Some? && IsTransaction(p.effect) && (p.state == Submitting ==> Funded(p, a))
    && var transaction, block := HexOf(found.value.transaction), HexOf(found.value.block);
    q == p.(state := if effect == ResolveDocument then Resolving else Composing,
            effect := effect, submissionId := None, resume := None, failure := None, updatedAt := q.updatedAt,
            inclusion := Inclusion(Some(transaction), Some(block), Some(found.value.height)),
            receipts := p.receipts + [Receipt(p.effect, SubmissionId(p.id, p.effect), transaction, block,
                                              found.value.height)])
  }

  /** `p` is stored, the ports answer `a`, and `q` is the record to store next. */
  predicate Explained(p: Operation, q: Operation, a: Answers) {
    && p.updatedAt <= q.updatedAt && Some(q.updatedAt) in a.times
    && if p.state == RetryableFailure then p.resume.Some? && q == Resumed(p).(updatedAt := q.updatedAt)
       else match q.state
         case Composing => Records(p, q, a)
         case Resolving => Records(p, q, a)
         case Funding => Plans(p, q, a)
         case Proving => p.state in {Funding, Proving} && Moved(p, q) && Quiet(q) && Funded(p, a)
         case Submitting => p.state == Proving && Moved(p, q) && Quiet(q) && Funded(p, a)
         case Confirming => false
         case Ready => p.state == Resolving && Moved(p, q) && Quiet(q) && a.resolution.Matching?
         case RetryableFailure =>
           Moved(p, q) && q.resume == Some(p.state) && q.failure.Some? && Fails(p, a, q.failure.value)
         case OutcomeUnknown =>
           && p.state == Submitting && Moved(p, q) && q.resume == Some(Confirming) && q.failure.None?
           && Funded(p, a) && a.submission.Lost?
  }

  /** A new operation, as one of the requests asks for it. */
  predicate Created(q: Operation, request: Request) {
    && request.random.Some? && request.now.Some? && request.write
    && q == Operation("did-deployment-" + HexOf(request.random.value), request.profile, request.network, Composing,
                      None, None, DeployContract, None, None, [], Inclusion(None, None, None),
                      request.now.value, request.now.value)
  }

  /** Different random bytes name different operations. */
  lemma {:induction false} FreshIdsAreDistinct(q: Operation, r: Request, q': Operation, r': Request)
    requires Created(q, r) && Created(q', r') && q.id == q'.id
    ensures r.random == r'.random
  {
    var prefix, a, b := "did-deployment-", r.random.value, r'.random.value;
    assert HexOf(a) == q.id[|prefix|..] && HexOf(b) == q'.id[|prefix|..];
    DecodePairsOfHex(a);
    DecodePairsOfHex(b);
  }

  // ------------------------------------------------------------- every write has its account

  /** What the ports and the callers said over some runs. */
  datatype Said = Said(answers: seq<Answers>, requests: seq<Request>)

  ghost predicate Accounted(said: Said, stored: Option<Operation>, e: Io) {
    e.Upsert? ==>
      match stored
      case None => exists r :: r in said.requests && Created(e.op, r)
      case Some(p) => exists a :: a in said.answers && Explained(p, e.op, a)
  }

  ghost function Accounts(said: Said): Rule {
    (st: Standing, e: Io) => Accounted(said, st.stored, e)
  }

  predicate Holds(st: Standing, op: Operation) {
    st.stored == Some(op) && Produced(op)
  }

  lemma OneAccount(said: Said, st: Standing, e: Io)
    requires Accounted(said, st.stored, e)
    ensures RunBy(Accounts(said), st, [e])
  {
    var io := [e];
    assert io[..|io| - 1] == [] && io[|io| - 1] == e;
    assert RunBy(Accounts(said), st, []) && Final(st, []) == st;
  }

  lemma WriteAccounted(said: Said, st: Standing, p: Operation, q: Operation, a: Answers)
    requires st.stored == Some(p) && a in said.answers && Explained(p, q, a)
    ensures RunBy(Accounts(said), st, [Upsert(q)])
  {
    OneAccount(said, st, Upsert(q));
  }

  lemma AfterAccounted(said: Said, st: Standing, e: Io, turn: Turn)
    requires Accounted(said, st.stored, e) && RunBy(Accounts(said), Advance(st, e), turn.io)
    ensures RunBy(Accounts(said), st, After([e], turn).io)
  {
    OneAccount(said, st, e);
    var io := [e];
    assert io[..|io| - 1] == [] && Final(st, []) == st;
    RunByConcat(Accounts(said), st, [e], turn.io);
  }

  lemma TimeIsOne(a: Answers, k: nat)
    requires Time(a, k).Some?
    ensures Time(a, k) in a.times
  {
  }

  lemma PauseAccounted(said: Said, st: Standing, op: Operation, failure: Failure, a: Answers, k: nat, ok: bool)
    requires Holds(st, op) && a in said.answers && (Paused(op, failure, op.updatedAt).Some? ==> Fails(op, a, failure))
    ensures RunBy(Accounts(said), st, PauseTurn(op, failure, Time(a, k), ok).io)
  {
    var turn := PauseTurn(op, failure, Time(a, k), ok);
    if turn.io != [] {
      TimeIsOne(a, k);
      WriteAccounted(said, st, op, turn.next.op, a);
    }
  }

  lemma ResolveAccounted(said: Said, st: Standing, op: Operation, a: Answers)
    requires Holds(st, op) && a in said.answers && op.state == Resolving
    ensures RunBy(Accounts(said), st, ResolveTurn(op, a).io)
  {
    var turn := ResolveTurn(op, a);
    if turn.io != [] {
      TimeIsOne(a, 0);
      assert turn.io == [Upsert(turn.next.op)];
      WriteAccounted(said, st, op, turn.next.op, a);
    }
  }

  lemma IncludeAccounted(said: Said, st: Standing, op: Operation, a: Answers, transaction: Option<Hash>,
                         block: Option<Hash>, height: Option<int>, i: nat, k: nat, ok: bool)
    requires Holds(st, op) && a in said.answers && (op.state == Submitting ==> Funded(op, a))
    requires transaction.Some? && block.Some? && height.Some? ==>
               Reported(op, a) == Some(Evidence(transaction.value, block.value, height.value))
    ensures RunBy(Accounts(said), st, IncludeTurn(op, transaction, block, height, Time(a, i), Time(a, k), ok).io)
  {
    var turn := IncludeTurn(op, transaction, block, height, Time(a, i), Time(a, k), ok);
    if turn.io != [] {
      var q := turn.next.op;
      TimeIsOne(a, k);
      IncludedFields(op, Transition(op, Confirming, Time(a, i).value).value, q, HexOf(transaction.value),
                     HexOf(block.value), height.value, Time(a, i).value, Time(a, k).value);
      assert Records(op, q, a);
      WriteAccounted(said, st, op, q, a);
    }
  }

  lemma ReconcileAccounted(said: Said, st: Standing, op: Operation, a: Answers)
    requires Holds(st, op) && a in said.answers && op.state == OutcomeUnknown
    ensures RunBy(Accounts(said), st, ReconcileTurn(op, a).io)
  {
    var e := Query(op.submissionId.value);
    OneAccount(said, st, e);
    if a.status.OnLedger? {
      var s := a.status;
      IncludeAccounted(said, Advance(st, e), op, a, s.transaction, s.block, s.height, 0, 1, Write(a, 0));
      AfterAccounted(said, st, e, IncludeTurn(op, s.transaction, s.block, s.height, Time(a, 0), Time(a, 1),
                                              Write(a, 0)));
    } else if a.status.RejectedOrExpired? {
      PauseAccounted(said, Advance(st, e), op, SubmissionRejected, a, 0, Write(a, 0));
      AfterAccounted(said, st, e, PauseTurn(op, SubmissionRejected, Time(a, 0), Write(a, 0)));
    }
  }

  lemma ResumeAccounted(said: Said, st: Standing, op: Operation, a: Answers)
    requires Holds(st, op) && a in said.answers && op.state == RetryableFailure
    ensures RunBy(Accounts(said), st, ResumeTurn(op, a).io)
  {
    var turn := ResumeTurn(op, a);
    if turn.io != [] {
      TimeIsOne(a, 0);
      WriteAccounted(said, st, op, turn.next.op, a);
    }
  }

  lemma UnknownAccounted(said: Said, st: Standing, op: Operation, a: Answers, ok: bool)
    requires Holds(st, op) && a in said.answers && op.state == Submitting && Funded(op, a) && a.submission.Lost?
    ensures RunBy(Accounts(said), st, UnknownTurn(op, Time(a, 4), ok).io)
  {
    var turn := UnknownTurn(op, Time(a, 4), ok);
    if turn.io != [] {
      TimeIsOne(a, 4);
      WriteAccounted(said, st, op, turn.next.op, a);
    }
  }

  lemma SubmitAccounted(said: Said, st: Standing, op: Operation, draft: string, a: Answers)
    requires Holds(st, op) && a in said.answers && op.state == Submitting && Funded(op, a)
    ensures RunBy(Accounts(said), st, SubmitTurn(op, draft, a).io)
  {
    var turn := SubmitTurn(op, draft, a);
    if turn.io != [] {
      var e := Submit(op, draft);
      var sent := Advance(st, e);
      match a.submission {
        case Lost =>
          UnknownAccounted(said, sent, op, a, Write(a, 3));
          AfterAccounted(said, st, e, UnknownTurn(op, Time(a, 4), Write(a, 3)));
        case Refused(failure) =>
          PauseAccounted(said, sent, op, failure, a, 4, Write(a, 3));
          AfterAccounted(said, st, e, PauseTurn(op, failure, Time(a, 4), Write(a, 3)));
        case Accepted(t, b, h) =>
          IncludeAccounted(said, sent, op, a, Some(t), Some(b), Some(h), 4, 5, Write(a, 3));
          AfterAccounted(said, st, e, IncludeTurn(op, Some(t), Some(b), Some(h), Time(a, 4), Time(a, 5), Write(a, 3)));
      }
    }
  }

  lemma SubmittingAccounted(said: Said, st: Standing, op: Operation, draft: string, a: Answers)
    requires Holds(st, op) && a in said.answers && op.state == Proving && Funded(op, a)
    ensures RunBy(Accounts(said), st, SubmittingTurn(op, draft, a).io)
  {
    if Time(a, 2).Some? {
      var submitting := Commit(Transition(op, Submitting, Time(a, 2).value), Write(a, 2));
      if submitting.Some? {
        var q := submitting.value;
        TimeIsOne(a, 2);
        AdvanceIsProduced(op, Submitting, Time(a, 2).value);
        assert Explained(op, q, a);
        SubmitAccounted(said, Advance(st, Upsert(q)), q, draft, a);
        AfterAccounted(said, st, Upsert(q), SubmitTurn(q, draft, a));
      }
    }
  }

  lemma ProvingAccounted(said: Said, st: Standing, op: Operation, draft: string, a: Answers)
    requires Holds(st, op) && a in said.answers && op.state in {Funding, Proving, Submitting} && Funded(op, a)
    ensures RunBy(Accounts(said), st, ProvingTurn(op, draft, a).io)
  {
    if Time(a, 1).Some? {
      var proving := Commit(Transition(op, Proving, Time(a, 1).value), Write(a, 1));
      if proving.Some? {
        var q := proving.value;
        TimeIsOne(a, 1);
        AdvanceIsProduced(op, Proving, Time(a, 1).value);
        assert Explained(op, q, a);
        SubmittingAccounted(said, Advance(st, Upsert(q)), q, draft, a);
        AfterAccounted(said, st, Upsert(q), SubmittingTurn(q, draft, a));
      }
    }
  }

  lemma FundAccounted(said: Said, st: Standing, op: Operation, draft: string, a: Answers)
    requires Holds(st, op) && a in said.answers && op.state in {Funding, Proving, Submitting}
    requires a.compose.Planned? && (op.effect == DeployContract ==> a.compose.did == op.did)
    ensures RunBy(Accounts(said), st, FundTurn(op, draft, a).io)
  {
    match a.funding {
      case Some(failure) => PauseAccounted(said, st, op, failure, a, 1, Write(a, 1));
      case None => ProvingAccounted(said, st, op, draft, a);
    }
  }

  lemma PreparedAccounted(op: Operation, a: Answers, q: Operation)
    requires Produced(op) && op.state == Composing && a.compose.Planned? && Time(a, 0).Some?
    requires (op.effect == DeployContract) == a.compose.did.Some?
    requires Prepare(op, a.compose.did, SubmissionId(op.id, op.effect), Time(a, 0).value) == Some(q)
    ensures Produced(q) && Explained(op, q, a) && q.state == Funding && q.effect == op.effect
    ensures op.effect == DeployContract ==> q.did == a.compose.did
  {
    TimeIsOne(a, 0);
    if op.effect == DeployContract {
      ComposedIsProduced(op, a.compose.did.value, Time(a, 0).value);
    } else {
      PreparedIsProduced(op, Time(a, 0).value);
    }
  }

  lemma PlannedAccounted(said: Said, st: Standing, op: Operation, a: Answers)
    requires Holds(st, op) && a in said.answers && op.state in {Composing, Funding, Proving, Submitting}
    requires a.compose.Planned?
    ensures RunBy(Accounts(said), st, PlannedTurn(op, a.compose.did, a).io)
  {
    var draft := SubmissionId(op.id, op.effect);
    if op.state != Composing {
      var turn := PlannedTurn(op, a.compose.did, a);
      if turn.io != [] {
        FundAccounted(said, st, op, draft, a);
      }
    } else if Time(a, 0).Some? && (op.effect == DeployContract) == a.compose.did.Some? {
      var prepared := Commit(Prepare(op, a.compose.did, draft, Time(a, 0).value), Write(a, 0));
      if prepared.Some? {
        var q := prepared.value;
        PreparedAccounted(op, a, q);
        FundAccounted(said, Advance(st, Upsert(q)), q, draft, a);
        AfterAccounted(said, st, Upsert(q), FundTurn(q, draft, a));
      }
    }
  }

  lemma {:induction false} ComposeAccounted(said: Said, st: Standing, op: Operation, a: Answers)
    requires Holds(st, op) && a in said.answers && op.state in {Composing, Funding, Proving, Submitting}
    ensures RunBy(Accounts(said), st, ComposeTurn(op, a).io)
  {
    if a.compose.Planned? {
      PlannedAccounted(said, st, op, a);
    } else if a.compose.error == Unavailable {
      PauseAccounted(said, st, op, CompositionUnavailable, a, 0, Write(a, 0));
    }
  }

  /** Every record an iteration stores is explained by what the ports answered in that iteration. */
  lemma {:induction false} IterationAccounted(said: Said, st: Standing, op: Operation, a: Answers)
    requires Holds(st, op) && a in said.answers
    ensures RunBy(Accounts(said), st, Iteration(op, a).io)
  {
    match op.state
    case Ready =>
    case Resolving => ResolveAccounted(said, st, op, a);
    case OutcomeUnknown => ReconcileAccounted(said, st, op, a);
    case RetryableFailure => ResumeAccounted(said, st, op, a);
    case _ => ComposeAccounted(said, st, op, a);
  }

  // -------------------------------------------------------------------- runs and histories

  lemma {:induction false} LoopAccounted(said: Said, st: Standing, op: Operation, answers: seq<Answers>)
    requires At(st, op) && forall i :: 0 <= i < |answers| ==> answers[i] in said.answers
    ensures RunBy(Accounts(said), st, Loop(op, answers).io)
    decreases |answers|
  {
    if answers != [] {
      var turn := Iteration(op, answers[0]);
      IterationAccounted(said, st, op, answers[0]);
      if turn.next.Continue? {
        IterationOk(st, op, answers[0]);
        LegalRunKeepsSound(st, turn.io);
        LoopAccounted(said, Final(st, turn.io), turn.next.op, answers[1..]);
        RunByConcat(Accounts(said), st, turn.io, Loop(turn.next.op, answers[1..]).io);
      }
    }
  }

  lemma {:induction false} StartAccounted(said: Said, request: Request)
    requires request in said.requests
    ensures RunBy(Accounts(said), START, StartTurn(request).io)
  {
    var turn := StartTurn(request);
    if turn.io != [] {
      assert Created(turn.next.op, request);
      OneAccount(said, START, Upsert(turn.next.op));
    }
  }

  lemma {:induction false} RunAccounted(said: Said, st: Standing, request: Request, answers: seq<Answers>)
    requires Sound(st) && request in said.requests && forall i :: 0 <= i < |answers| ==> answers[i] in said.answers
    ensures RunBy(Accounts(said), st, Run(st.stored, request, answers).io)
  {
    if request.network == Offchain {
    } else if st.stored.Some? {
      if st.stored.value.state != Ready {
        LoopAccounted(said, st, st.stored.value, answers);
      }
    } else {
      var start := StartTurn(request);
      StartOk(request);
      StartAccounted(said, request);
      if start.next.Continue? {
        LegalRunKeepsSound(st, start.io);
        LoopAccounted(said, Final(st, start.io), start.next.op, answers);
        RunByConcat(Accounts(said), st, start.io, Loop(start.next.op, answers).io);
      }
    }
  }

  predicate Covers(said: Said, attempt: Attempt) {
    attempt.request in said.requests && forall i :: 0 <= i < |attempt.answers| ==> attempt.answers[i] in said.answers
  }

  lemma {:induction false} HistoryAccounted(said: Said, attempts: seq<Attempt>)
    requires forall k :: 0 <= k < |attempts| ==> Covers(said, attempts[k])
    ensures RunBy(Accounts(said), START, Trace(None, attempts))
  {
    if attempts != [] {
      var earlier := Trace(None, attempts[..|attempts| - 1]);
      var last := attempts[|attempts| - 1];
      HistoryAccounted(said, attempts[..|attempts| - 1]);
      HistoryIsLegal(START, attempts[..|attempts| - 1]);
      var reached := Final(START, earlier);
      RunAccounted(said, reached, last.request, last.answers);
      var all := Run(reached.stored, last.request, last.answers).io;
      RunByPrefix(Accounts(said), reached, all, if last.survives < |all| then last.survives else |all|);
      assert all[..|all|] == all;
      RunByConcat(Accounts(said), START, earlier, Performed(reached.stored, last));
    }
  }

  /** Everything the ports and the callers said in a sequence of attempts. */
  function Heard(attempts: seq<Attempt>): (said: Said)
    ensures forall k :: 0 <= k < |attempts| ==> Covers(said, attempts[k])
  {
    if attempts == [] then Said([], [])
    else
      var earlier, last := Heard(attempts[..|attempts| - 1]), attempts[|attempts| - 1];
      Said(earlier.answers + last.answers, earlier.requests + [last.request])
  }

  // ------------------------------------------------------------------------------ theorems

  /**
   Across any sequence of runs and crashes from an empty repository, every record written is explained: the
   first by a request, and each later one by the record before it and an answer that some iteration got.
   */
  lemma {:induction false} WritesAreExplained(attempts: seq<Attempt>, io: seq<Io>, i: nat)
    requires io == Trace(None, attempts) && i < |io|
    ensures Accounted(Heard(attempts), Stored(None, io[..i]), io[i])
  {
    HistoryAccounted(Heard(attempts), attempts);
    RunByPrefix(Accounts(Heard(attempts)), START, io, i);
    FinalStored(START, io[..i]);
  }

  lemma {:induction false} StoredIsProduced(attempts: seq<Attempt>, io: seq<Io>, i: nat)
    requires io == Trace(None, attempts) && i <= |io|
    ensures Stored(None, io[..i]).Some? ==> Produced(Stored(None, io[..i]).value)
  {
    HistoryIsLegal(START, attempts);
    LegalPrefix(START, io, i);
    LegalRunKeepsSound(START, io[..i]);
    FinalStored(START, io[..i]);
  }

  /** A record is stored as Ready only over the same record in Resolving, when the resolver's document matched. */
  lemma {:induction false} ReadyIsResolved(attempts: seq<Attempt>, io: seq<Io>, i: nat) returns (a: Answers)
    requires io == Trace(None, attempts) && i < |io| && io[i].Upsert? && io[i].op.state == Ready
    ensures a in Heard(attempts).answers && a.resolution.Matching?
    ensures Stored(None, io[..i]).Some? && Stored(None, io[..i]).value.state == Resolving
    ensures Moved(Stored(None, io[..i]).value, io[i].op)
  {
    WritesAreExplained(attempts, io, i);
    StoredIsProduced(attempts, io, i);
    var p := Stored(None, io[..i]);
    if p.Some? {
      a :| a in Heard(attempts).answers && Explained(p.value, io[i].op, a);
    }
  }

  lemma ResolvingExplained(p: Operation, q: Operation, a: Answers)
    requires p.state == Resolving && Explained(p, q, a)
    ensures q.state == Ready <==> a.resolution.Matching?
    ensures q.state != Ready ==>
              && q.state == RetryableFailure && q.resume == Some(Resolving)
              && (q.failure == Some(ResolutionUnavailable) <==> a.resolution.ResolverDown?)
              && (q.failure == Some(ResolutionMismatch) <==> a.resolution.Mismatching?)
  {
  }

  /** The same account of a pause in Resolving: which failure it carries, and that it resumes there. */
  lemma {:induction false} ResolutionPauses(attempts: seq<Attempt>, io: seq<Io>, i: nat) returns (a: Answers)
    requires io == Trace(None, attempts) && i < |io| && io[i].Upsert?
    requires Stored(None, io[..i]).Some? && Stored(None, io[..i]).value.state == Resolving
    ensures a in Heard(attempts).answers
    ensures io[i].op.state == Ready <==> a.resolution.Matching?
    ensures io[i].op.state != Ready ==>
              && io[i].op.state == RetryableFailure && io[i].op.resume == Some(Resolving)
              && (io[i].op.failure == Some(ResolutionUnavailable) <==> a.resolution.ResolverDown?)
              && (io[i].op.failure == Some(ResolutionMismatch) <==> a.resolution.Mismatching?)
  {
    WritesAreExplained(attempts, io, i);
    var p := Stored(None, io[..i]).value;
    a :| a in Heard(attempts).answers && Explained(p, io[i].op, a);
    ResolvingExplained(p, io[i].op, a);
  }

  // ------------------------------------------------------------------- what receipts stand for

  /** The submission or the status port reported this inclusion. */
  predicate Attests(a: Answers, r: Receipt) {
    || (a.submission.Accepted? && r.transaction == HexOf(a.submission.transaction)
        && r.block == HexOf(a.submission.block) && r.height == a.submission.height)
    || (a.status.OnLedger? && a.status.transaction.Some? && a.status.block.Some? && a.status.height.Some?
        && r.transaction == HexOf(a.status.transaction.value) && r.block == HexOf(a.status.block.value)
        && r.height == a.status.height.value)
  }

  ghost predicate Attested(said: Said, r: Receipt) {
    exists a :: a in said.answers && Attests(a, r)
  }

  /** What the account of a write says about the receipts. */
  lemma ReceiptsKept(p: Operation, q: Operation, a: Answers)
    requires Explained(p, q, a)
    ensures p.receipts <= q.receipts && |q.receipts| <= |p.receipts| + 1
    ensures |q.receipts| > |p.receipts| ==> Attests(a, q.receipts[|p.receipts|])
  {
  }

  lemma {:induction false} ReceiptsAttested(said: Said, io: seq<Io>, op: Operation, j: nat)
    requires RunBy(Accounts(said), START, io) && Stored(None, io) == Some(op) && j < |op.receipts|
    ensures Attested(said, op.receipts[j])
  {
    var front, e := io[..|io| - 1], io[|io| - 1];
    FinalStored(START, front);
    var p := Stored(None, front);
    if !e.Upsert? {
      ReceiptsAttested(said, front, op, j);
    } else if p.Some? {
      var a :| a in said.answers && Explained(p.value, op, a);
      ReceiptsKept(p.value, op, a);
      if j < |p.value.receipts| {
        ReceiptsAttested(said, front, p.value, j);
      }
    }
  }

  /** Every receipt of a stored record is an inclusion that a port reported, written as lower-case hex. */
  lemma {:induction false} ReceiptsAreReported(attempts: seq<Attempt>, op: Operation, j: nat)
    requires Stored(None, Trace(None, attempts)) == Some(op) && j < |op.receipts|
    ensures Attested(Heard(attempts), op.receipts[j])
  {
    HistoryAccounted(Heard(attempts), attempts);
    ReceiptsAttested(Heard(attempts), Trace(None, attempts), op, j);
  }

  // --------------------------------------------------------------------- records move forward

  /** Later records keep whose operation it is and every receipt, and never go back in time. */
  predicate Forward(p: Operation, q: Operation) {
    && q.id == p.id && q.profile == p.profile && q.network == p.network && q.createdAt == p.createdAt
    && p.updatedAt <= q.updatedAt && p.receipts <= q.receipts && Ordinal(p.effect) <= Ordinal(q.effect)
    && (p.did.Some? ==> q.did == p.did)
  }

  lemma ExplainedForward(p: Operation, q: Operation, a: Answers)
    requires Produced(p) && Explained(p, q, a)
    ensures Forward(p, q)
  {
    ReceiptsKept(p, q, a);
  }

  lemma ForwardTwice(p: Operation, q: Operation, r: Operation)
    requires Forward(p, q) && Forward(q, r)
    ensures Forward(p, r)
  {
  }

  /** Whatever was written at some point, the record stored at any later point continues it. */
  lemma {:induction false} RecordsMoveForward(attempts: seq<Attempt>, io: seq<Io>, i: nat, j: nat)
    requires io == Trace(None, attempts) && i < j <= |io| && io[i].Upsert?
    ensures Stored(None, io[..j]).Some? && Forward(io[i].op, Stored(None, io[..j]).value)
  {
    var front := io[..j - 1];
    assert io[..j][..j - 1] == front && io[..j][j - 1] == io[j - 1];
    if i < j - 1 {
      RecordsMoveForward(attempts, io, i, j - 1);
      if io[j - 1].Upsert? {
        var p := Stored(None, front).value;
        WritesAreExplained(attempts, io, j - 1);
        StoredIsProduced(attempts, io, j - 1);
        var a :| a in Heard(attempts).answers && Explained(p, io[j - 1].op, a);
        ExplainedForward(p, io[j - 1].op, a);
        ForwardTwice(io[i].op, p, io[j - 1].op);
      }
    }
  }
}
