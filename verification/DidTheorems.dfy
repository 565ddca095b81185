/** Whole histories of the deployment workflow: any sequence of runs, each possibly cut short. */
module DidTheorems {
  import opened Common
  import opened Codecs
  import opened DidOperation
  import opened DidDeployment
  import opened DidHistory

  /** One call of `run`; it performs at most `survives` of its inputs and outputs before the process dies. */
  datatype Attempt = Attempt(request: Request, answers: seq<Answers>, survives: nat)

  function Performed(stored: Option<Operation>, attempt: Attempt): seq<Io> {
    var io := Run(stored, attempt.request, attempt.answers).io;
    if attempt.survives < |io| then io[..attempt.survives] else io
  }

  /** Everything performed by a sequence of attempts on an initially stored record. */
  function Trace(stored: Option<Operation>, attempts: seq<Attempt>): seq<Io> {
    if attempts == [] then []
    else
      var earlier := Trace(stored, attempts[..|attempts| - 1]);
      earlier + Performed(Stored(stored, earlier), attempts[|attempts| - 1])
  }

  /** The effects submitted, in order. */
  function Submissions(io: seq<Io>): seq<Effect> {
    if io == [] then []
    else
      var last := io[|io| - 1];
      Submissions(io[..|io| - 1]) + if last.Submit? then [last.op.effect] else []
  }

  // --------------------------------------------------------------- histories are legal

  lemma {:induction false} FinalStored(st: Standing, io: seq<Io>)
    ensures Final(st, io).stored == Stored(st.stored, io)
  {
    if io != [] {
      FinalStored(st, io[..|io| - 1]);
    }
  }

  lemma {:induction false} HistoryIsLegal(st: Standing, attempts: seq<Attempt>)
    requires Sound(st)
    ensures LegalRun(st, Trace(st.stored, attempts))
    ensures Sound(Final(st, Trace(st.stored, attempts)))
    ensures Final(st, Trace(st.stored, attempts)).stored == Stored(st.stored, Trace(st.stored, attempts))
  {
    var io := Trace(st.stored, attempts);
    FinalStored(st, io);
    if attempts != [] {
      var earlier := Trace(st.stored, attempts[..|attempts| - 1]);
      var last := attempts[|attempts| - 1];
      HistoryIsLegal(st, attempts[..|attempts| - 1]);
      var reached := Final(st, earlier);
      RunOk(reached, last.request, last.answers);
      var all := Run(reached.stored, last.request, last.answers).io;
      LegalPrefix(reached, all, if last.survives < |all| then last.survives else |all|);
      assert all[..|all|] == all;
      LegalConcat(st, earlier, Performed(reached.stored, last));
      LegalRunKeepsSound(st, io);
    }
  }

  lemma {:induction false} SubmissionsCount(st: Standing, io: seq<Io>)
    ensures Final(st, io).submitted == st.submitted + |Submissions(io)|
  {
    if io != [] {
      SubmissionsCount(st, io[..|io| - 1]);
    }
  }

  /** Each submission is for the effect with as many predecessors as submissions were made before. */
  predicate InSequence(io: seq<Io>) {
    forall i :: 0 <= i < |io| && io[i].Submit? ==> Ordinal(io[i].op.effect) == |Submissions(io[..i])|
  }

  lemma {:induction false} LegalSubmit(st: Standing, e: Io)
    requires Legal(st, e) && e.Submit?
    ensures st.submitted == Ordinal(e.op.effect)
  {
  }

  lemma {:induction false} LegalInSequence(io: seq<Io>, i: nat)
    requires LegalRun(START, io) && i < |io| && io[i].Submit?
    ensures Ordinal(io[i].op.effect) == |Submissions(io[..i])|
  {
    LegalPrefix(START, io, i);
    LegalSubmit(Final(START, io[..i]), io[i]);
    SubmissionsCount(START, io[..i]);
  }

  lemma {:induction false} SequenceInOrder(io: seq<Io>)
    requires InSequence(io)
    ensures forall i :: 0 <= i < |Submissions(io)| ==> Submissions(io)[i] == EffectAt(i)
  {
    if io != [] {
      var front := io[..|io| - 1];
      assert forall i :: 0 <= i < |front| ==> front[..i] == io[..i];
      SequenceInOrder(front);
    }
  }

  /** The submissions of a legal history are the leading effects, each once, in order. */
  lemma {:induction false} SubmissionsInOrder(io: seq<Io>)
    requires LegalRun(START, io)
    ensures |Submissions(io)| == Final(START, io).submitted
    ensures forall i :: 0 <= i < |Submissions(io)| ==> Submissions(io)[i] == EffectAt(i)
  {
    forall i | 0 <= i < |io| && io[i].Submit?
      ensures Ordinal(io[i].op.effect) == |Submissions(io[..i])|
    {
      LegalInSequence(io, i);
    }
    SequenceInOrder(io);
    SubmissionsCount(START, io);
  }

  // ------------------------------------------------------------------------- theorems

  lemma {:induction false} ArmedMeansJustWritten(io: seq<Io>)
    requires Final(START, io).armed
    ensures io != [] && Final(START, io).stored.Some?
    ensures io[|io| - 1] == Upsert(Final(START, io).stored.value)
  {
  }

  lemma {:induction false} LegalIsWrittenAhead(io: seq<Io>, i: nat)
    requires LegalRun(START, io) && i < |io| && io[i].Submit?
    ensures i > 0 && io[i - 1] == Upsert(io[i].op) && io[i].op.state == Submitting
    ensures io[i].draft == SubmissionId(io[i].op.id, io[i].op.effect)
    ensures io[i].op.submissionId == Some(io[i].draft)
  {
    LegalPrefix(START, io, i);
    ArmedMeansJustWritten(io[..i]);
    LegalRunKeepsSound(START, io[..i]);
  }

  /**
   Across any sequence of runs and crashes from an empty repository, every submission call is directly
   preceded by the durable write of that very operation in Submitting, under its effect's deterministic id.
   */
  lemma {:induction false} SubmissionsAreWrittenAhead(attempts: seq<Attempt>, io: seq<Io>, i: nat)
    requires io == Trace(None, attempts) && i < |io| && io[i].Submit?
    ensures i > 0 && io[i - 1] == Upsert(io[i].op) && io[i].op.state == Submitting
    ensures io[i].draft == SubmissionId(io[i].op.id, io[i].op.effect)
    ensures io[i].op.submissionId == Some(io[i].draft)
  {
    HistoryIsLegal(START, attempts);
    LegalIsWrittenAhead(io, i);
  }

  lemma {:induction false} LegalSubmissionsAreBounded(io: seq<Io>)
    requires LegalRun(START, io)
    ensures |Submissions(io)| <= EFFECTS
  {
    LegalRunKeepsSound(START, io);
    SubmissionsInOrder(io);
  }

  /** Every effect is submitted at most once, in effect order, whatever fails and however often the run restarts. */
  lemma {:induction false} EffectsAreSubmittedOnceInOrder(attempts: seq<Attempt>, io: seq<Io>)
    requires io == Trace(None, attempts)
    ensures |Submissions(io)| <= EFFECTS
    ensures forall i :: 0 <= i < |Submissions(io)| ==> Submissions(io)[i] == EffectAt(i)
  {
    HistoryIsLegal(START, attempts);
    LegalSubmissionsAreBounded(io);
    SubmissionsInOrder(io);
  }

  lemma {:induction false} LegalReadyMeansEachEffectOnce(io: seq<Io>, op: Operation)
    requires LegalRun(START, io) && Stored(None, io) == Some(op) && op.state == Ready
    ensures Submissions(io) == seq(EFFECTS, i => EffectAt(i))
    ensures |op.receipts| == EFFECTS && LabelledReceipts(op.id, op.receipts)
    ensures forall i :: 0 <= i < EFFECTS ==> op.receipts[i].effect == EffectAt(i)
  {
    FinalStored(START, io);
    LegalRunKeepsSound(START, io);
    SubmissionsInOrder(io);
  }

  /** A record stored as Ready stands for exactly one submission, and one receipt under its id, of each effect. */
  lemma {:induction false} ReadyMeansEachEffectOnce(attempts: seq<Attempt>, io: seq<Io>, op: Operation)
    requires io == Trace(None, attempts) && Stored(None, io) == Some(op) && op.state == Ready
    ensures Submissions(io) == seq(EFFECTS, i => EffectAt(i))
    ensures |op.receipts| == EFFECTS && LabelledReceipts(op.id, op.receipts)
    ensures forall i :: 0 <= i < EFFECTS ==> op.receipts[i].effect == EffectAt(i)
  {
    HistoryIsLegal(START, attempts);
    LegalReadyMeansEachEffectOnce(io, op);
  }

  lemma {:induction false} SubmissionsGrow(a: seq<Io>, b: seq<Io>)
    ensures Submissions(a + b) == Submissions(a) + Submissions(b)
  {
    if b == [] {
      assert a + b == a;
    } else {
      SubmissionsGrow(a, b[..|b| - 1]);
      assert (a + b)[..|a + b| - 1] == a + b[..|b| - 1];
    }
  }

  /** Later attempts only add to a history. */
  lemma {:induction false} TraceSplits(stored: Option<Operation>, first: seq<Attempt>, more: seq<Attempt>)
    ensures Trace(stored, first) <= Trace(stored, first + more)
  {
    if more == [] {
      assert first + more == first;
    } else {
      TraceSplits(stored, first, more[..|more| - 1]);
      assert (first + more)[..|first + more| - 1] == first + more[..|more| - 1];
    }
  }

  lemma {:induction false} LegalUnknownIsNeverResubmitted(io: seq<Io>, more: seq<Io>, op: Operation)
    requires LegalRun(START, io) && LegalRun(START, io + more)
    requires Stored(None, io) == Some(op) && op.state == OutcomeUnknown
    ensures |Submissions(io)| == Ordinal(op.effect) + 1 && op.effect !in Submissions(more)
  {
    FinalStored(START, io);
    LegalRunKeepsSound(START, io);
    SubmissionsInOrder(io);
    SubmissionsInOrder(io + more);
    LegalSubmissionsAreBounded(io + more);
    SubmissionsGrow(io, more);
    LaterEffects(Submissions(io), Submissions(more), op.effect);
  }

  lemma LaterEffects(a: seq<Effect>, b: seq<Effect>, e: Effect)
    requires |a| == Ordinal(e) + 1 && |a + b| <= EFFECTS
    requires forall i :: 0 <= i < |a + b| ==> (a + b)[i] == EffectAt(i)
    ensures e !in b
  {
    forall j | 0 <= j < |b| ensures b[j] != e {
      assert b[j] == (a + b)[|a| + j];
    }
  }

  /** Once an operation is stored as OutcomeUnknown, its effect is never submitted again by any later run. */
  lemma {:induction false} UnknownIsNeverResubmitted(first: seq<Attempt>, later: seq<Attempt>, io: seq<Io>,
                                                     all: seq<Io>, op: Operation)
    requires io == Trace(None, first) && all == Trace(None, first + later)
    requires Stored(None, io) == Some(op) && op.state == OutcomeUnknown
    ensures io <= all && |Submissions(io)| == Ordinal(op.effect) + 1
    ensures op.effect !in Submissions(all[|io|..])
  {
    TraceSplits(None, first, later);
    HistoryIsLegal(START, first);
    HistoryIsLegal(START, first + later);
    assert io + all[|io|..] == all;
    LegalUnknownIsNeverResubmitted(io, all[|io|..], op);
  }

  /** A status of Rejected or Expired does not release an unknown outcome: the run fails and the record stays. */
  lemma {:induction false} RejectionKeepsUnknown(op: Operation, a: Answers, answers: seq<Answers>)
    requires Valid(op) && op.state == OutcomeUnknown && a.status.RejectedOrExpired?
    requires answers != [] && answers[0] == a
    ensures Loop(op, answers).io == [Query(op.submissionId.value)]
    ensures Loop(op, answers).next == Fail(if Time(a, 0).None? then Unavailable else OperationFailed)
  {
    assert Iteration(op, a) == ReconcileTurn(op, a);
  }

  /** Only an inclusion report moves an unknown outcome on, by one receipt for the very effect. */
  lemma {:induction false} UnknownLeavesOnlyByInclusion(op: Operation, a: Answers, q: Operation)
    requires Valid(op) && op.state == OutcomeUnknown && Iteration(op, a).next == Continue(q)
    ensures a.status.OnLedger? && |q.receipts| == |op.receipts| + 1 && q.receipts[..|op.receipts|] == op.receipts
    ensures q.receipts[|op.receipts|].effect == op.effect
  {
    assert Iteration(op, a) == ReconcileTurn(op, a);
    if a.status.OnLedger? {
      IncludedFields(op, Transition(op, Confirming, Time(a, 0).value).value, q, HexOf(a.status.transaction.value),
                     HexOf(a.status.block.value), a.status.height.value, Time(a, 0).value, Time(a, 1).value);
    }
  }

  /** Different effects, or different operations, never share a submission id. */
  lemma SubmissionIdsAreDistinct(id: string, e: Effect, id': string, e': Effect)
    requires SubmissionId(id, e) == SubmissionId(id', e')
    ensures id == id' && e == e'
  {
    NameHasNoDash(e);
    NameHasNoDash(e');
    SplitAtLastDash(id, EffectName(e), id', EffectName(e'));
    NameLength(e);
    NameLength(e');
  }

  lemma {:induction false} LastDash(id: string, name: string)
    requires Dashless(name)
    ensures
      var s := id + "-" + name;
      s[|id|] == '-' && forall j :: |id| < j < |s| ==> s[j] != '-'
  {
    var s := id + "-" + name;
    assert forall j :: |id| < j < |s| ==> s[j] == name[j - |id| - 1];
  }

  lemma {:induction false} SplitAtLastDash(id: string, name: string, id': string, name': string)
    requires Dashless(name) && Dashless(name') && id + "-" + name == id' + "-" + name'
    ensures id == id' && name == name'
  {
    var s := id + "-" + name;
    LastDash(id, name);
    LastDash(id', name');
    assert id == s[..|id|] && id' == s[..|id'|];
    assert name == s[|id| + 1..] && name' == s[|id'| + 1..];
  }

  predicate Dashless(s: string) { forall i :: 0 <= i < |s| ==> s[i] != '-' }

  /** No effect name contains the separator. */
  lemma NameHasNoDash(e: Effect)
    ensures Dashless(EffectName(e))
  {
    if e == DeployContract || e == InstallVerificationMethodVerifier { FirstNames(e); }
    else if e == InstallJubjubVerifier || e == InstallRelationshipVerifier { InstallNames(e); }
    else if e == AddAuthenticationMethod || e == AddAuthenticationRelationship { AuthenticationNames(e); }
    else { LastNames(e); }
  }

  lemma FirstNames(e: Effect)
    requires e == DeployContract || e == InstallVerificationMethodVerifier
    ensures Dashless(EffectName(e))
  {
  }

  lemma InstallNames(e: Effect)
    requires e == InstallJubjubVerifier || e == InstallRelationshipVerifier
    ensures Dashless(EffectName(e))
  {
  }

  lemma AuthenticationNames(e: Effect)
    requires e == AddAuthenticationMethod || e == AddAuthenticationRelationship
    ensures Dashless(EffectName(e))
  {
  }

  lemma LastNames(e: Effect)
    requires e == AddAssertionMethod || e == AddAssertionRelationship || e == ResolveDocument
    ensures Dashless(EffectName(e))
  {
  }

  /** The names all have different lengths. */
  lemma NameLength(e: Effect)
    ensures |EffectName(e)| == [15, 36, 23, 29, 25, 31, 20, 26, 16][Ordinal(e)]
  {
  }
}
