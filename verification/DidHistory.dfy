/** What every input and output of the deployment workflow is allowed to do, turn by turn. */
module DidHistory {
  import opened Common
  import opened Codecs
  import opened DidOperation
  import opened DidDeployment

  /** The current effect may already have been submitted. */
  predicate Spent(op: Operation) {
    || op.state in {Submitting, OutcomeUnknown}
    || (op.state == RetryableFailure && op.resume == Some(Submitting))
  }

  /** `n` submissions were made: one per earlier effect, and at most one, only if spent, for the current effect. */
  predicate Settled(op: Operation, n: int) {
    var k := Ordinal(op.effect);
    && k <= n <= k + 1
    && (n == k + 1 ==> Spent(op))
    && (op.state == OutcomeUnknown ==> n == k + 1)
  }

  /** The stored record, how many submissions were made, and whether the last event stored that record. */
  datatype Standing = Standing(stored: Option<Operation>, submitted: int, armed: bool)

  const START := Standing(None, 0, false)

  predicate Sound(st: Standing) {
    match st.stored
    case None => st.submitted == 0 && !st.armed
    case Some(op) => Produced(op) && Settled(op, st.submitted)
  }

  predicate Legal(st: Standing, e: Io) {
    match e
    case Upsert(q) =>
      Produced(q) && Settled(q, st.submitted) && (st.stored.Some? ==> q.id == st.stored.value.id)
    case Submit(q, draft) =>
      && st.armed && st.stored == Some(q) && q.state == Submitting
      && draft == SubmissionId(q.id, q.effect) && st.submitted == Ordinal(q.effect)
    case Query(draft) =>
      st.stored.Some? && st.stored.value.state == OutcomeUnknown && st.stored.value.submissionId == Some(draft)
  }

  function Advance(st: Standing, e: Io): Standing {
    match e
    case Upsert(q) => Standing(Some(q), st.submitted, true)
    case Submit(_, _) => st.(submitted := st.submitted + 1, armed := false)
    case Query(_) => st.(armed := false)
  }

  function Final(st: Standing, io: seq<Io>): Standing {
    if io == [] then st else Advance(Final(st, io[..|io| - 1]), io[|io| - 1])
  }

  type Rule = (Standing, Io) -> bool

  /** Every event keeps a rule where it happens. */
  predicate RunBy(rule: Rule, st: Standing, io: seq<Io>) {
    io == [] || (RunBy(rule, st, io[..|io| - 1]) && rule(Final(st, io[..|io| - 1]), io[|io| - 1]))
  }

  predicate LegalRun(st: Standing, io: seq<Io>) {
    RunBy(Legal, st, io)
  }

  // --------------------------------------------------------------------- runs of events

  lemma LegalKeepsSound(st: Standing, e: Io)
    requires Sound(st) && Legal(st, e)
    ensures Sound(Advance(st, e))
  {
  }

  lemma {:induction false} LegalRunKeepsSound(st: Standing, io: seq<Io>)
    requires Sound(st) && LegalRun(st, io)
    ensures Sound(Final(st, io))
  {
    if io != [] {
      LegalRunKeepsSound(st, io[..|io| - 1]);
      LegalKeepsSound(Final(st, io[..|io| - 1]), io[|io| - 1]);
    }
  }

  lemma {:induction false} RunByPrefix(rule: Rule, st: Standing, io: seq<Io>, k: nat)
    requires RunBy(rule, st, io) && k <= |io|
    ensures RunBy(rule, st, io[..k])
    ensures k < |io| ==> rule(Final(st, io[..k]), io[k])
  {
    if k == |io| {
      assert io[..k] == io;
    } else {
      var front := io[..|io| - 1];
      RunByPrefix(rule, st, front, k);
      assert front[..k] == io[..k];
    }
  }

  lemma {:induction false} RunByConcat(rule: Rule, st: Standing, a: seq<Io>, b: seq<Io>)
    requires RunBy(rule, st, a) && RunBy(rule, Final(st, a), b)
    ensures RunBy(rule, st, a + b) && Final(st, a + b) == Final(Final(st, a), b)
  {
    if b == [] {
      assert a + b == a;
    } else {
      var front := b[..|b| - 1];
      RunByConcat(rule, st, a, front);
      assert (a + b)[..|a + b| - 1] == a + front;
    }
  }

  lemma {:induction false} LegalPrefix(st: Standing, io: seq<Io>, k: nat)
    requires LegalRun(st, io) && k <= |io|
    ensures LegalRun(st, io[..k])
    ensures k < |io| ==> Legal(Final(st, io[..k]), io[k])
  {
    RunByPrefix(Legal, st, io, k);
  }

  lemma {:induction false} LegalConcat(st: Standing, a: seq<Io>, b: seq<Io>)
    requires LegalRun(st, a) && LegalRun(Final(st, a), b)
    ensures LegalRun(st, a + b) && Final(st, a + b) == Final(Final(st, a), b)
  {
    RunByConcat(Legal, st, a, b);
  }

  lemma LegalOne(st: Standing, e: Io)
    requires Legal(st, e)
    ensures LegalRun(st, [e]) && Final(st, [e]) == Advance(st, e)
  {
    var io := [e];
    assert io[..|io| - 1] == [] && io[|io| - 1] == e;
    assert RunBy(Legal, st, []) && Final(st, []) == st;
  }

  // --------------------------------------------------------------------- turns are legal

  predicate TurnOk(st: Standing, turn: Turn) {
    && LegalRun(st, turn.io)
    && (!turn.next.Fail? ==> Final(st, turn.io).stored == Some(turn.next.op))
  }

  lemma OneWrite(st: Standing, q: Operation, next: Next)
    requires Legal(st, Upsert(q)) && (next == Continue(q) || next == Return(q))
    ensures TurnOk(st, Turn([Upsert(q)], next))
  {
    LegalOne(st, Upsert(q));
  }

  lemma AfterOk(st: Standing, e: Io, turn: Turn)
    requires Legal(st, e) && TurnOk(Advance(st, e), turn)
    ensures TurnOk(st, After([e], turn))
  {
    LegalOne(st, e);
    LegalConcat(st, [e], turn.io);
  }

  predicate At(st: Standing, op: Operation) {
    Sound(st) && st.stored == Some(op)
  }

  lemma PauseOk(st: Standing, op: Operation, failure: Failure, now: Option<int>, ok: bool)
    requires At(st, op)
    ensures TurnOk(st, PauseTurn(op, failure, now, ok))
  {
    var turn := PauseTurn(op, failure, now, ok);
    if turn.io != [] {
      PausedIsProduced(op, failure, now.value);
      OneWrite(st, turn.next.op, turn.next);
    }
  }

  lemma IncludeOk(st: Standing, op: Operation, transaction: Option<Hash>, block: Option<Hash>, height: Option<int>,
                  confirmed: Option<int>, now: Option<int>, ok: bool)
    requires At(st, op) && op.state in {Submitting, OutcomeUnknown} && st.submitted == Ordinal(op.effect) + 1
    ensures TurnOk(st, IncludeTurn(op, transaction, block, height, confirmed, now, ok))
  {
    var turn := IncludeTurn(op, transaction, block, height, confirmed, now, ok);
    if turn.io != [] {
      var q := turn.next.op;
      IncludedIsProduced(op, Transition(op, Confirming, confirmed.value).value, q, HexOf(transaction.value),
                         HexOf(block.value), height.value, confirmed.value, now.value);
      OneWrite(st, q, turn.next);
    }
  }

  lemma UnknownOk(st: Standing, op: Operation, now: Option<int>, ok: bool)
    requires At(st, op) && op.state == Submitting && st.submitted == Ordinal(op.effect) + 1
    ensures TurnOk(st, UnknownTurn(op, now, ok))
  {
    var turn := UnknownTurn(op, now, ok);
    if turn.io != [] {
      UnknownIsProduced(op, now.value);
      OneWrite(st, turn.next.op, turn.next);
    }
  }

  lemma SubmitOk(st: Standing, op: Operation, draft: string, a: Answers)
    requires At(st, op) && st.armed && op.state == Submitting && st.submitted == Ordinal(op.effect)
    requires draft == SubmissionId(op.id, op.effect)
    ensures TurnOk(st, SubmitTurn(op, draft, a))
  {
    var turn := SubmitTurn(op, draft, a);
    if turn.io != [] {
      var e := Submit(op, draft);
      var sent := Advance(st, e);
      LegalKeepsSound(st, e);
      match a.submission {
        case Lost =>
          UnknownOk(sent, op, Time(a, 4), Write(a, 3));
          AfterOk(st, e, UnknownTurn(op, Time(a, 4), Write(a, 3)));
        case Refused(failure) =>
          PauseOk(sent, op, failure, Time(a, 4), Write(a, 3));
          AfterOk(st, e, PauseTurn(op, failure, Time(a, 4), Write(a, 3)));
        case Accepted(transaction, block, height) =>
          IncludeOk(sent, op, Some(transaction), Some(block), Some(height), Time(a, 4), Time(a, 5), Write(a, 3));
          AfterOk(st, e, IncludeTurn(op, Some(transaction), Some(block), Some(height), Time(a, 4), Time(a, 5),
                                     Write(a, 3)));
      }
    }
  }

  lemma SubmittingOk(st: Standing, op: Operation, draft: string, a: Answers)
    requires At(st, op) && op.state == Proving && draft == SubmissionId(op.id, op.effect)
    ensures TurnOk(st, SubmittingTurn(op, draft, a))
  {
    var turn := SubmittingTurn(op, draft, a);
    if Time(a, 2).Some? {
      var submitting := Commit(Transition(op, Submitting, Time(a, 2).value), Write(a, 2));
      if submitting.Some? {
        AdvanceIsProduced(op, Submitting, Time(a, 2).value);
        var e := Upsert(submitting.value);
        LegalKeepsSound(st, e);
        SubmitOk(Advance(st, e), submitting.value, draft, a);
        AfterOk(st, e, SubmitTurn(submitting.value, draft, a));
      }
    }
  }

  lemma ProvingOk(st: Standing, op: Operation, draft: string, a: Answers)
    requires At(st, op) && op.state in {Funding, Proving, Submitting} && draft == SubmissionId(op.id, op.effect)
    ensures TurnOk(st, ProvingTurn(op, draft, a))
  {
    if Time(a, 1).Some? {
      var proving := Commit(Transition(op, Proving, Time(a, 1).value), Write(a, 1));
      if proving.Some? {
        AdvanceIsProduced(op, Proving, Time(a, 1).value);
        var e := Upsert(proving.value);
        LegalKeepsSound(st, e);
        SubmittingOk(Advance(st, e), proving.value, draft, a);
        AfterOk(st, e, SubmittingTurn(proving.value, draft, a));
      }
    }
  }

  lemma FundOk(st: Standing, op: Operation, draft: string, a: Answers)
    requires At(st, op) && op.state in {Funding, Proving, Submitting} && draft == SubmissionId(op.id, op.effect)
    ensures TurnOk(st, FundTurn(op, draft, a))
  {
    match a.funding {
      case Some(failure) => PauseOk(st, op, failure, Time(a, 1), Write(a, 1));
      case None => ProvingOk(st, op, draft, a);
    }
  }

  lemma PreparedOk(st: Standing, op: Operation, did: Option<Did>, now: int, q: Operation)
    requires At(st, op) && op.state == Composing
    requires Prepare(op, did, SubmissionId(op.id, op.effect), now) == Some(q)
    ensures Legal(st, Upsert(q)) && q.state == Funding && q.id == op.id && q.effect == op.effect
  {
    if op.effect == DeployContract {
      ComposedIsProduced(op, did.value, now);
    } else {
      PreparedIsProduced(op, now);
    }
  }

  lemma PlannedOk(st: Standing, op: Operation, did: Option<Did>, a: Answers)
    requires At(st, op) && op.state in {Composing, Funding, Proving, Submitting}
    ensures TurnOk(st, PlannedTurn(op, did, a))
  {
    var draft := SubmissionId(op.id, op.effect);
    if op.state != Composing {
      FundOk(st, op, draft, a);
    } else if Time(a, 0).Some? {
      var prepared := Commit(Prepare(op, did, draft, Time(a, 0).value), Write(a, 0));
      if prepared.Some? {
        var e := Upsert(prepared.value);
        PreparedOk(st, op, did, Time(a, 0).value, prepared.value);
        LegalKeepsSound(st, e);
        FundOk(Advance(st, e), prepared.value, draft, a);
        AfterOk(st, e, FundTurn(prepared.value, draft, a));
      }
    }
  }

  lemma ReconcileOk(st: Standing, op: Operation, a: Answers)
    requires At(st, op) && op.state == OutcomeUnknown
    ensures TurnOk(st, ReconcileTurn(op, a))
  {
    var e := Query(op.submissionId.value);
    var asked := Advance(st, e);
    LegalKeepsSound(st, e);
    LegalOne(st, e);
    if a.status.OnLedger? {
      var s := a.status;
      IncludeOk(asked, op, s.transaction, s.block, s.height, Time(a, 0), Time(a, 1), Write(a, 0));
      AfterOk(st, e, IncludeTurn(op, s.transaction, s.block, s.height, Time(a, 0), Time(a, 1), Write(a, 0)));
    } else if a.status.RejectedOrExpired? {
      AfterOk(st, e, PauseTurn(op, SubmissionRejected, Time(a, 0), Write(a, 0)));
    }
  }

  lemma ResumeOk(st: Standing, op: Operation, a: Answers)
    requires At(st, op) && op.state == RetryableFailure
    ensures TurnOk(st, ResumeTurn(op, a))
  {
    var turn := ResumeTurn(op, a);
    if turn.io != [] {
      ResumeIsProduced(op, Time(a, 0).value);
      OneWrite(st, turn.next.op, turn.next);
    }
  }

  lemma ResolveOk(st: Standing, op: Operation, a: Answers)
    requires At(st, op) && op.state == Resolving
    ensures TurnOk(st, ResolveTurn(op, a))
  {
    if a.resolution.ResolverDown? {
      PauseOk(st, op, ResolutionUnavailable, Time(a, 0), Write(a, 0));
    } else if a.resolution.Mismatching? {
      PauseOk(st, op, ResolutionMismatch, Time(a, 0), Write(a, 0));
    } else {
      var turn := ResolveTurn(op, a);
      if turn.io != [] {
        AdvanceIsProduced(op, Ready, Time(a, 0).value);
        OneWrite(st, turn.next.op, turn.next);
      }
    }
  }

  lemma ComposeOk(st: Standing, op: Operation, a: Answers)
    requires At(st, op) && op.state in {Composing, Funding, Proving, Submitting}
    ensures TurnOk(st, ComposeTurn(op, a))
  {
    if a.compose.Planned? {
      PlannedOk(st, op, a.compose.did, a);
    } else if a.compose.error == Unavailable {
      PauseOk(st, op, CompositionUnavailable, Time(a, 0), Write(a, 0));
    }
  }

  lemma IterationOk(st: Standing, op: Operation, a: Answers)
    requires At(st, op)
    ensures TurnOk(st, Iteration(op, a))
  {
    match op.state {
      case Ready =>
      case Resolving => ResolveOk(st, op, a);
      case OutcomeUnknown => ReconcileOk(st, op, a);
      case RetryableFailure => ResumeOk(st, op, a);
      case _ => ComposeOk(st, op, a);
    }
  }

  lemma {:induction false} LoopOk(st: Standing, op: Operation, answers: seq<Answers>)
    requires At(st, op)
    ensures TurnOk(st, Loop(op, answers))
    decreases |answers|
  {
    if answers != [] {
      var turn := Iteration(op, answers[0]);
      IterationOk(st, op, answers[0]);
      if turn.next.Continue? {
        var reached := Final(st, turn.io);
        LegalRunKeepsSound(st, turn.io);
        LoopOk(reached, turn.next.op, answers[1..]);
        LegalConcat(st, turn.io, Loop(turn.next.op, answers[1..]).io);
      }
    }
  }

  lemma StartOk(request: Request)
    ensures TurnOk(START, StartTurn(request))
  {
    var turn := StartTurn(request);
    if turn.io != [] {
      HexOfShape(request.random.value);
      NewIsProduced(FreshId(request.random.value), request.profile, request.network, request.now.value);
      OneWrite(START, turn.next.op, turn.next);
    }
  }

  /** Every run, from every sound standing, performs only legal input and output. */
  lemma RunOk(st: Standing, request: Request, answers: seq<Answers>)
    requires Sound(st)
    ensures LegalRun(st, Run(st.stored, request, answers).io)
  {
    if request.network == Offchain {
    } else if st.stored.Some? {
      if st.stored.value.state != Ready {
        LoopOk(st, st.stored.value, answers);
      }
    } else {
      var start := StartTurn(request);
      StartOk(request);
      if start.next.Continue? {
        LegalRunKeepsSound(st, start.io);
        LoopOk(Final(st, start.io), start.next.op, answers);
        LegalConcat(st, start.io, Loop(start.next.op, answers).io);
      }
    }
  }
}
