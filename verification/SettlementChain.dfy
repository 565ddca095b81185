/** The completions the settlement executor reports about the chain: finality, reconciliation and DUST refreshes. */
module SettlementChain {
  import opened Common
  import opened SettlementExecutor
  import opened SettlementInvariant
  import opened SettlementTheorems

  /** What the event log says about the completions reported so far. */
  datatype Chain = Chain(
    final: bool,             // finality was reported, and nothing since made it forgotten
    everFinal: bool,         // finality was reported in this process lifetime
    heard: Option<Answer>,   // what the status port answered, if that was the last event
    revision: int,           // the revision of the last completion in this process lifetime, or 0
    observed: Option<int>,   // the revision of the last observation reported in this binding
    refresh: Option<int>)    // the observation that the last refresh was asked for to follow

  const NOTHING := Chain(false, false, None, 0, None, None)

  /** A new transaction is known for the submission, so that finality is to be observed afresh. */
  predicate Renews(e: Event) {
    Submits(e) || (e.StatusReturned? && e.why.AfterUnknown? && e.answer.TransactionSeen?)
  }

  function Next(c: Chain, e: Event): Chain {
    var c := c.(heard := None);
    match e
    case ObserveReturned(_, answer) => c.(heard := Some(answer))
    case FinalityObserved(revision) => Chain(true, true, None, revision, Some(revision), c.refresh)
    case Reconciled(revision) => c.(revision := revision, observed := Some(revision))
    case RefreshCalled(after) => c.(refresh := Some(after))
    case DustRefreshed(revision, _) => c.(revision := revision)
    case Rebound(_) => c.(final := false, observed := None)
    case Restarted => NOTHING
    case _ => if Renews(e) then c.(final := false) else c
  }

  function Follow(log: seq<Event>): Chain {
    if log == [] then NOTHING else Next(Follow(log[..|log| - 1]), log[|log| - 1])
  }

  /** Strictly newer, unless the revisions are saturated. */
  predicate Newer(revision: int, than: int) {
    than < revision < MAX_U64 || revision == MAX_U64
  }

  predicate Fair(c: Chain, e: Event) {
    match e
    case FinalityObserved(revision) => c.heard == Some(IncludedStatus) && !c.final && Newer(revision, c.revision)
    case Reconciled(revision) =>
      && (c.heard == Some(OtherStatus) || (c.heard == Some(IncludedStatus) && c.everFinal))
      && Newer(revision, c.revision)
    case RefreshCalled(after) => c.observed == Some(after)
    case DustRefreshed(revision, after) => Newer(revision, c.revision) && c.refresh == Some(after)
    case _ => true
  }

  ghost predicate LogFair(log: seq<Event>) {
    forall i :: 0 <= i < |log| ==> Fair(Follow(log[..i]), log[i])
  }

  lemma FairGrows(log: seq<Event>, e: Event)
    requires LogFair(log) && Fair(Follow(log), e)
    ensures LogFair(log + [e]) && Follow(log + [e]) == Next(Follow(log), e)
  {
    assert (log + [e])[..|log|] == log;
    forall i | 0 <= i < |log| + 1 ensures Fair(Follow((log + [e])[..i]), (log + [e])[i]) {
      assert (log + [e])[..i] == log[..i];
      if i == |log| {
        assert log[..i] == log;
      }
    }
  }

  // ------------------------------------------------------------------------- the invariant

  /** The operation works on what it read of `finality` when it started. */
  predicate ReadFinality(pc: Pc) {
    pc.LoadDraft? || pc.Observing?
  }

  predicate Refreshes(pc: Pc) {
    pc.Refreshing? || pc.Rebinding? || pc.StampRefresh?
  }

  /** The program counter is nowhere that the chain invariant looks at. */
  predicate Elsewhere(pc: Pc) {
    !ReadFinality(pc) && !Refreshes(pc) && !pc.MarkFinality? && !pc.ReadChainRevision?
  }

  predicate Agrees(r: Retained, pc: Pc, c: Chain) {
    && (c.final ==> (r.finality || pc.MarkFinality?) && (ReadFinality(pc) ==> pc.finality))
    && (r.finality || pc.MarkFinality? || (ReadFinality(pc) && pc.finality) ==> c.everFinal)
    && c.revision <= r.operationRevision
    && c.observed == (if r.bound.Some? && r.chainRevision > 0 then Some(r.chainRevision) else None)
    && (Refreshes(pc) ==> c.refresh == Some(pc.after))
    && (!Elsewhere(pc) ==> r.bound.Some?)
  }

  ghost predicate Chained(w: World) {
    LogFair(w.log) && Agrees(w.retained, w.pc, Follow(w.log))
  }

  /** The revisions and `finality` are as before. */
  predicate SameChain(r: Retained, r': Retained) {
    && r'.operationRevision == r.operationRevision && r'.chainRevision == r.chainRevision && r'.finality == r.finality
    && r'.bound == r.bound
  }

  /** A step of an operation that has nothing to do with the chain, with or without an event. */
  lemma ElsewhereKeeps(w: World, v: World)
    requires Chained(w) && Elsewhere(w.pc) && Elsewhere(v.pc) && SameChain(w.retained, v.retained) && v.log == w.log
    ensures Chained(v)
  {
  }

  lemma EventKeeps(w: World, v: World, e: Event)
    requires Chained(w) && Fair(Follow(w.log), e) && v.log == w.log + [e]
    requires Agrees(v.retained, v.pc, Next(Follow(w.log), e))
    ensures Chained(v)
  {
    FairGrows(w.log, e);
  }

  lemma FinishKeeps(w: World)
    requires Chained(w) && !w.pc.MarkFinality?
    ensures Chained(Finish(w))
  {
    var v := Finish(w);
    assert v.log == w.log && v.retained == w.retained && (v.pc.Idle? || v.pc.Dropping?);
  }

  lemma StartKeeps(w: World, op: Operation)
    requires Chained(w) && w.pc.Idle? && w.retained.bound.Some?
    ensures Chained(StartPc(w, op))
  {
    var v := StartPc(w, op);
    if op.Observe? && w.retained.preview.Some? {
      EventKeeps(w, v, ObserveCalled(w.retained.preview.value.draft));
    }
  }

  lemma SelectKeeps(w: World, s: Selected)
    requires Chained(w)
    ensures Chained(BindSelected(w, s))
  {
    if Rebinds(w.retained, s) {
      EventKeeps(w, BindSelected(w, s), Rebound(CarriesDraft(w.pc)));
    }
  }

  lemma UserKeeps(w: World, c: bool)
    requires Chained(w)
    ensures Chained(StageConfirmation(w, c))
    ensures Chained(Log(w.(retained := w.retained.(confirmation := None)), Unstaged))
  {
    EventKeeps(w, StageConfirmation(w, c), Staged(c));
    EventKeeps(w, Log(w.(retained := w.retained.(confirmation := None)), Unstaged), Unstaged);
  }

  lemma RestartKeeps(w: World, cleared: bool, durable: bool, op: int, chain: int)
    requires Chained(w) && 0 <= chain <= op
    ensures Chained(RestartApply(w, cleared, durable, op, chain))
  {
    EventKeeps(w, RestartApply(w, cleared, durable, op, chain), Restarted);
  }

  /** What an answered call leaves behind, when the call was not about the chain. */
  predicate Answers(w: World, v: World, e: Event) {
    && v.log == w.log + [e] && Elsewhere(v.pc)
    && SameChain(w.retained.(finality := w.retained.finality && !Renews(e)), v.retained)
  }

  lemma AnswerKeeps(w: World, v: World, e: Event)
    requires Chained(w) && Elsewhere(w.pc) && Answers(w, v, e)
    requires e.PrepareReturned? || e.AuthorizeReturned? || e.StatusReturned? || e.SubmitReturned?
    ensures Chained(v)
  {
    EventKeeps(w, v, e);
  }

  lemma PrepareAnswers(w: World, answer: Answer, v: World)
    requires w.pc.Preparing? && v == PrepareReturns(Heard(w, answer), w.pc.identity, answer)
    ensures Answers(w, v, PrepareReturned(w.pc.identity, answer, Admits(w.retained, w.pc.identity)))
  {
  }

  lemma AuthorizeAnswers(w: World, answer: Answer, v: World)
    requires w.pc.Authorizing? && v == AuthorizeReturns(Heard(w, answer), w.pc.draft, answer)
    ensures Answers(w, v, AuthorizeReturned(w.pc.draft, answer))
  {
  }

  lemma RecoverAnswers(w: World, answer: Answer, v: World)
    requires w.pc.Recovering? && v == RecoverReturns(Heard(w, answer), answer)
    ensures Answers(w, v, StatusReturned(w.pc.draft, w.pc.why, answer))
  {
  }

  lemma SubmitAnswers(w: World, answer: Answer, v: World)
    requires w.pc.Broadcasting? && v == BroadcastReturns(Heard(w, answer), w.pc.identity, w.pc.draft, answer)
    ensures Answers(w, v, SubmitReturned(w.pc.draft, answer))
  {
  }

  lemma FirstAnswersKeep(w: World, answer: Answer, v: World)
    requires Chained(w) && (w.pc.Preparing? || w.pc.Authorizing?) && v == ProceedOther(Heard(w, answer), answer)
    ensures Chained(v)
  {
    if w.pc.Preparing? {
      PrepareAnswers(w, answer, v);
      AnswerKeeps(w, v, PrepareReturned(w.pc.identity, answer, Admits(w.retained, w.pc.identity)));
    } else {
      AuthorizeAnswers(w, answer, v);
      AnswerKeeps(w, v, AuthorizeReturned(w.pc.draft, answer));
    }
  }

  lemma LastAnswersKeep(w: World, answer: Answer, v: World)
    requires Chained(w) && (w.pc.Recovering? || w.pc.Broadcasting?)
    requires v == if w.pc.Recovering? then RecoverReturns(Heard(w, answer), answer)
                  else BroadcastReturns(Heard(w, answer), w.pc.identity, w.pc.draft, answer)
    ensures Chained(v)
  {
    if w.pc.Recovering? {
      RecoverAnswers(w, answer, v);
      AnswerKeeps(w, v, StatusReturned(w.pc.draft, w.pc.why, answer));
    } else {
      SubmitAnswers(w, answer, v);
      AnswerKeeps(w, v, SubmitReturned(w.pc.draft, answer));
    }
  }

  /** An action that logs at most one call of a port, and is not about the chain. */
  predicate Acts(w: World, v: World, e: Event) {
    && Elsewhere(v.pc) && SameChain(w.retained, v.retained) && (v.log == w.log || v.log == w.log + [e])
  }

  lemma ActKeeps(w: World, v: World, e: Event)
    requires Chained(w) && Elsewhere(w.pc) && Acts(w, v, e)
    requires e.AuthorizeCalled? || e.Marked? || e.Broadcast?
    ensures Chained(v)
  {
    if v.log == w.log {
      ElsewhereKeeps(w, v);
    } else {
      EventKeeps(w, v, e);
    }
  }

  lemma TakeKeeps(w: World, v: World)
    requires Chained(w) && w.pc.TakeConfirmation? && v == TakeConfirmationNext(w, w.pc.identity, w.pc.draft)
    ensures Chained(v)
  {
    assert Acts(w, v, AuthorizeCalled(w.pc.identity, w.pc.draft));
    ActKeeps(w, v, AuthorizeCalled(w.pc.identity, w.pc.draft));
  }

  lemma LookKeeps(w: World, v: World)
    requires Chained(w) && (w.pc.CheckPreview? || w.pc.ReadPreview?)
    requires v == SubmitLooks(w, w.pc.identity, w.pc.draft)
    ensures Chained(v)
  {
    assert Acts(w, v, Marked);
    ActKeeps(w, v, Marked);
  }

  predicate Decides(pc: Pc) {
    pc.CheckUncertain? || pc.ClearUncertain? || pc.LoadRecord? || pc.MarkUncertain? || pc.CallSubmit?
  }

  lemma DecisionActs(w: World, answer: Answer, v: World, e: Event)
    requires Decides(w.pc) && v == SubmitDecides(w, answer)
    requires e == if w.pc.MarkUncertain? then Marked else Broadcast(w.pc.identity, w.pc.draft)
    ensures Acts(w, v, e)
  {
  }

  lemma DecideKeeps(w: World, answer: Answer, v: World)
    requires Chained(w) && Decides(w.pc) && v == SubmitDecides(w, answer)
    ensures Chained(v)
  {
    var e := if w.pc.MarkUncertain? then Marked else Broadcast(w.pc.identity, w.pc.draft);
    DecisionActs(w, answer, v, e);
    ActKeeps(w, v, e);
  }

  lemma CompletionKeeps(w: World, r: Retained, answer: Answer, e: Event, v: World)
    requires Chained(w) && w.pc.Observing? && Ordered(w.retained, w.pc) && r == NextChainRevision(w.retained)
    requires answer.IncludedStatus? || answer.OtherStatus?
    requires e == if answer.IncludedStatus? && !w.pc.finality then FinalityObserved(r.operationRevision)
                  else Reconciled(r.operationRevision)
    requires v.retained == r && v.log == w.log + [ObserveReturned(w.pc.draft, answer)] + [e]
    requires v.pc == if e.FinalityObserved? then MarkFinality else Idle
    ensures Chained(v)
  {
    var log := w.log + [ObserveReturned(w.pc.draft, answer)];
    FairGrows(w.log, ObserveReturned(w.pc.draft, answer));
    FairGrows(log, e);
  }

  lemma ObserveKeeps(w: World, answer: Answer, v: World)
    requires Chained(w) && w.pc.Observing? && Ordered(w.retained, w.pc)
    requires v == ObserveReturns(Heard(w, answer), w.pc.finality, answer)
    ensures Chained(v)
  {
    var e, r := ObserveReturned(w.pc.draft, answer), NextChainRevision(w.retained);
    if answer.IncludedStatus? || answer.OtherStatus? {
      var f := if answer.IncludedStatus? && !w.pc.finality then FinalityObserved(r.operationRevision)
                else Reconciled(r.operationRevision);
      CompletionKeeps(w, r, answer, f, v);
    } else {
      assert v.log == w.log + [e] && v.retained == w.retained && Elsewhere(v.pc);
      EventKeeps(w, v, e);
    }
  }

  lemma LoadDraftKeeps(w: World, answer: Answer, v: World)
    requires Chained(w) && w.pc.LoadDraft? && v == DraftLoaded(w, w.pc.identity, w.pc.finality, answer)
    ensures Chained(v)
  {
    if v == Finish(w) {
      FinishKeeps(w);
    } else {
      EventKeeps(w, v, ObserveCalled(w.protocol.store.value.draft.value));
    }
  }

  lemma MarkKeeps(w: World, v: World)
    requires Chained(w) && w.pc.MarkFinality? && v == w.(retained := w.retained.(finality := true), pc := Idle)
    ensures Chained(v)
  {
  }

  lemma ReadKeeps(w: World, v: World)
    requires Chained(w) && w.pc.ReadChainRevision?
    requires v == ChainRevisionRead(w, w.pc.identity, w.retained.chainRevision)
    ensures Chained(v)
  {
    if w.retained.chainRevision > 0 {
      EventKeeps(w, v, RefreshCalled(w.retained.chainRevision));
    } else {
      FinishKeeps(w);
    }
  }

  lemma RefreshKeeps(w: World, answer: Answer, v: World)
    requires Chained(w) && w.pc.Refreshing? && v == RefreshReturns(w, w.pc.identity, w.pc.after, answer)
    ensures Chained(v)
  {
    assert v.log == w.log && v.retained == w.retained;
  }

  lemma RebindKeeps(w: World, v: World)
    requires Chained(w) && w.pc.Rebinding?
    requires v == BindSelected(w.(pc := StampRefresh(w.pc.after)), w.pc.refreshed)
    ensures Chained(v)
  {
    var u := w.(pc := StampRefresh(w.pc.after));
    assert Chained(u);
    SelectKeeps(u, w.pc.refreshed);
  }

  lemma StampKeeps(w: World, v: World)
    requires Chained(w) && Ordered(w.retained, w.pc) && w.pc.StampRefresh? && v == StampRefreshed(w, w.pc.after)
    ensures Chained(v)
  {
    EventKeeps(w, v, DustRefreshed(NextRevision(w.retained).operationRevision, w.pc.after));
  }

  /** The actions of a submit operation. */
  predicate Submitting(pc: Pc) {
    pc.CheckPreview? || pc.ReadPreview? || pc.Recovering? || pc.Broadcasting? || Decides(pc)
  }

  lemma SubmitKeeps(w: World, answer: Answer, v: World)
    requires Chained(w) && Submitting(w.pc) && v == ProceedApply(Heard(w, answer), answer)
    ensures Chained(v)
  {
    if w.pc.Recovering? || w.pc.Broadcasting? {
      AwaitedIs(w, answer);
      LastAnswersKeep(w, answer, v);
    } else {
      UnheardIs(w, answer);
      if Decides(w.pc) { DecideKeeps(w, answer, v); } else { LookKeeps(w, v); }
    }
  }

  lemma UnheardIs(w: World, answer: Answer)
    requires w.pc.CheckPreview? || w.pc.ReadPreview? || Decides(w.pc)
    ensures ProceedApply(Heard(w, answer), answer) ==
            if Decides(w.pc) then SubmitDecides(w, answer) else SubmitLooks(w, w.pc.identity, w.pc.draft)
  {
  }

  lemma OtherKeeps(w: World, answer: Answer, v: World)
    requires Chained(w) && Ordered(w.retained, w.pc) && !w.pc.Idle? && !w.pc.Waiting? && !w.pc.Dropping?
    requires !Submitting(w.pc) && v == ProceedOther(Heard(w, answer), answer)
    ensures Chained(v)
  {
    match w.pc
    case Preparing(_) => FirstAnswersKeep(w, answer, v);
    case Authorizing(_, _) => FirstAnswersKeep(w, answer, v);
    case TakeConfirmation(_, _) => TakeKeeps(w, v);
    case Observing(_, _, _) => ObserveKeeps(w, answer, v);
    case LoadDraft(_, _) => LoadDraftKeeps(w, answer, v);
    case Refreshing(_, _) => RefreshKeeps(w, answer, v);
    case Rebinding(_, _, _) => RebindKeeps(w, v);
    case StampRefresh(_) => StampKeeps(w, v);
    case ReadChainRevision(_) => ReadKeeps(w, v);
    case _ => MarkKeeps(w, v);
  }

  lemma ChainProceeds(w: World, answer: Answer, v: World)
    requires Chained(w) && Ordered(w.retained, w.pc) && !w.pc.Idle? && !w.pc.Waiting? && !w.pc.Dropping?
    requires v == ProceedApply(Heard(w, answer), answer)
    ensures Chained(v)
  {
    if Submitting(w.pc) {
      SubmitKeeps(w, answer, v);
    } else {
      OtherKeeps(w, answer, v);
    }
  }

  lemma WaitKeeps(w: World)
    requires Chained(w) && (w.pc.Waiting? || w.pc.Dropping?)
    ensures Chained(WaitApply(w))
  {
    ElsewhereKeeps(w, WaitApply(w));
  }

  lemma StepKeepsChain(w: World, a: Step)
    requires Chained(w) && Ordered(w.retained, w.pc) && Enabled(w, a)
    ensures Chained(Apply(w, a))
  {
    match a
    case Background(_) =>
    case Wait => WaitKeeps(w);
    case Abandon =>
      if w.pc.Waiting? { ElsewhereKeeps(w, Apply(w, a)); } else { FinishKeeps(w); }
    case Start(op) => StartKeeps(w, op);
    case Proceed(answer) => ChainProceeds(w, answer, Apply(w, a));
    case Select(s) => SelectKeeps(w, s);
    case Stage(c) => UserKeeps(w, c);
    case Unstage => UserKeeps(w, true);
    case Restart(cleared, durable, op, chain) => RestartKeeps(w, cleared, durable, op, chain);
  }

  lemma {:induction false} RunKeepsChain(w: World, steps: seq<Step>, v: World)
    requires Inv(w) && Chained(w) && Runs(w, steps, v)
    ensures Chained(v)
    decreases |steps|
  {
    if steps != [] {
      var u := FirstOfRun(w, steps, v);
      StepKeepsInv(w, steps[0]);
      StepKeepsChain(w, steps[0]);
      RunKeepsChain(u, steps[1..], v);
    }
  }

  lemma ReachableChained(w: World)
    requires Reachable(w)
    ensures LogFair(w.log)
  {
    var boot, steps :| Booted(boot) && Runs(boot, steps, w);
    BootInv(boot);
    RunKeepsChain(boot, steps, w);
  }

  // ------------------------------------------------------------------------------ theorems

  predicate Completes(e: Event) {
    e.FinalityObserved? || e.Reconciled? || e.DustRefreshed?
  }

  lemma FollowNext(log: seq<Event>, n: int)
    requires 0 <= n < |log|
    ensures Follow(log[..n + 1]) == Next(Follow(log[..n]), log[n])
  {
    assert log[..n + 1][..n] == log[..n];
  }

  lemma NextClimbs(c: Chain, e: Event)
    requires Fair(c, e) && !e.Restarted?
    ensures Next(c, e).revision == c.revision || Newer(Next(c, e).revision, c.revision)
    ensures Completes(e) ==> Next(c, e).revision == e.revision && Newer(e.revision, c.revision)
  {
  }

  lemma ClimbStep(log: seq<Event>, n: int)
    requires LogFair(log) && 0 < n <= |log| && !log[n - 1].Restarted?
    ensures
      var before, now := Follow(log[..n - 1]).revision, Follow(log[..n]).revision;
      && (now == before || Newer(now, before))
      && (Completes(log[n - 1]) ==> now == log[n - 1].revision && Newer(now, before))
  {
    FollowNext(log, n - 1);
    NextClimbs(Follow(log[..n - 1]), log[n - 1]);
  }

  lemma {:induction false} RevisionClimbs(log: seq<Event>, i: int, n: int)
    requires LogFair(log) && 0 <= i < n <= |log| && Completes(log[i])
    requires forall k :: i < k < n ==> !log[k].Restarted?
    ensures log[i].revision <= Follow(log[..n]).revision <= MAX_U64
    decreases n
  {
    ClimbStep(log, n);
    if n - 1 > i {
      RevisionClimbs(log, i, n - 1);
    }
  }

  /** Completions carry strictly increasing revisions in each process lifetime, up to saturation. */
  lemma CompletionsIncrease(w: World, i: int, j: int)
    requires Reachable(w) && 0 <= i < j < |w.log| && Completes(w.log[i]) && Completes(w.log[j])
    requires forall k :: i < k < j ==> !w.log[k].Restarted?
    ensures w.log[i].revision < w.log[j].revision || w.log[j].revision == MAX_U64
  {
    ReachableChained(w);
    RevisionClimbs(w.log, i, j);
    NextClimbs(Follow(w.log[..j]), w.log[j]);
  }

  lemma {:induction false} StaysFinal(log: seq<Event>, i: int, n: int)
    requires 0 <= i < n <= |log| && log[i].FinalityObserved?
    requires forall k :: i < k < n ==> !Resets(log[k]) && !Renews(log[k])
    ensures Follow(log[..n]).final
    decreases n
  {
    FollowNext(log, n - 1);
    if n - 1 > i {
      StaysFinal(log, i, n - 1);
    }
  }

  lemma {:induction false} FindFinal(log: seq<Event>, n: int) returns (i: int)
    requires 0 <= n <= |log| && Follow(log[..n]).everFinal
    ensures 0 <= i < n && log[i].FinalityObserved? && forall k :: i < k < n ==> !log[k].Restarted?
  {
    assert n > 0;
    FollowNext(log, n - 1);
    if log[n - 1].FinalityObserved? {
      i := n - 1;
    } else {
      i := FindFinal(log, n - 1);
    }
  }

  lemma HeardLast(log: seq<Event>, n: int)
    requires 0 <= n <= |log| && Follow(log[..n]).heard.Some?
    ensures n > 0 && log[n - 1].ObserveReturned? && Follow(log[..n]).heard == Some(log[n - 1].answer)
  {
    if n > 0 {
      FollowNext(log, n - 1);
    }
  }

  /**
   Finality is reported right when the status port says included, and only once: between two reports a new
   transaction became known, or the realm was rebound, or the process restarted.
   */
  lemma FinalityOnce(w: World, j: int)
    requires Reachable(w) && 0 <= j < |w.log| && w.log[j].FinalityObserved?
    ensures j > 0 && w.log[j - 1].ObserveReturned? && w.log[j - 1].answer.IncludedStatus?
    ensures forall i :: 0 <= i < j && w.log[i].FinalityObserved? ==>
              exists k :: i < k < j && (Resets(w.log[k]) || Renews(w.log[k]))
  {
    ReachableChained(w);
    assert Fair(Follow(w.log[..j]), w.log[j]);
    HeardLast(w.log, j);
    forall i | 0 <= i < j && w.log[i].FinalityObserved?
      ensures exists k :: i < k < j && (Resets(w.log[k]) || Renews(w.log[k]))
    {
      if forall k :: i < k < j ==> !Resets(w.log[k]) && !Renews(w.log[k]) {
        StaysFinal(w.log, i, j);
      }
    }
  }

  /** That the status port says included is a mere reconciliation only after finality was reported in this lifetime. */
  lemma ReconciledAfterFinality(w: World, j: int) returns (i: int)
    requires Reachable(w) && 0 <= j < |w.log| && w.log[j].Reconciled?
    ensures j > 0 && w.log[j - 1].ObserveReturned?
    ensures w.log[j - 1].answer.IncludedStatus? || w.log[j - 1].answer.OtherStatus?
    ensures w.log[j - 1].answer.IncludedStatus? ==>
              0 <= i < j && w.log[i].FinalityObserved? && forall k :: i < k < j ==> !w.log[k].Restarted?
  {
    ReachableChained(w);
    assert Fair(Follow(w.log[..j]), w.log[j]);
    HeardLast(w.log, j);
    i := 0;
    if w.log[j - 1].answer.IncludedStatus? {
      i := FindFinal(w.log, j);
    }
  }

  predicate Observes(e: Event) {
    e.FinalityObserved? || e.Reconciled?
  }

  lemma NextObserved(c: Chain, e: Event)
    ensures Observes(e) ==> Next(c, e).observed == Some(e.revision)
    ensures !Observes(e) ==> Next(c, e).observed == if Resets(e) then None else c.observed
  {
  }

  lemma {:induction false} FindObserved(log: seq<Event>, n: int) returns (i: int)
    requires 0 <= n <= |log| && Follow(log[..n]).observed.Some?
    ensures 0 <= i < n && Observes(log[i]) && Follow(log[..n]).observed == Some(log[i].revision)
    ensures forall k :: i < k < n ==> !Resets(log[k]) && !Observes(log[k])
  {
    assert n > 0;
    FollowNext(log, n - 1);
    NextObserved(Follow(log[..n - 1]), log[n - 1]);
    if Observes(log[n - 1]) {
      i := n - 1;
    } else {
      i := FindObserved(log, n - 1);
    }
  }

  lemma NextRefresh(c: Chain, e: Event)
    requires Next(c, e).refresh.Some?
    ensures if e.RefreshCalled? then Next(c, e).refresh == Some(e.after)
            else Next(c, e).refresh == c.refresh && !e.Restarted?
  {
  }

  lemma {:induction false} FindRefresh(log: seq<Event>, n: int) returns (i: int)
    requires 0 <= n <= |log| && Follow(log[..n]).refresh.Some?
    ensures 0 <= i < n && log[i] == RefreshCalled(Follow(log[..n]).refresh.value)
    ensures forall k :: i < k < n ==> !log[k].RefreshCalled? && !log[k].Restarted?
  {
    assert n > 0;
    FollowNext(log, n - 1);
    NextRefresh(Follow(log[..n - 1]), log[n - 1]);
    if log[n - 1].RefreshCalled? {
      i := n - 1;
    } else {
      i := FindRefresh(log, n - 1);
    }
  }

  /**
   A refresh, reported at `j`, names the observation it was asked for, at `k`, to follow; and that is the last one
   reported by then, at `i`, in the very binding of `k`: neither a restart nor a rebind leaves one to follow.
   */
  lemma RefreshFollowsObservation(w: World, j: int) returns (i: int, k: int)
    requires Reachable(w) && 0 <= j < |w.log| && w.log[j].DustRefreshed?
    ensures 0 <= i < k < j && Observes(w.log[i]) && w.log[k] == RefreshCalled(w.log[i].revision)
    ensures w.log[j].after == w.log[i].revision
    ensures forall m :: i < m < k ==> !Resets(w.log[m]) && !Observes(w.log[m])
    ensures forall m :: k < m < j ==> !w.log[m].RefreshCalled? && !w.log[m].Restarted?
  {
    ReachableChained(w);
    assert Fair(Follow(w.log[..j]), w.log[j]);
    k := FindRefresh(w.log, j);
    assert Fair(Follow(w.log[..k]), w.log[k]);
    i := FindObserved(w.log, k);
  }

  lemma RebindingIs(w: World, answer: Answer)
    requires w.pc.Rebinding? && Enabled(w, Proceed(answer))
    ensures Apply(w, Proceed(answer)) == BindSelected(w.(pc := StampRefresh(w.pc.after)), w.pc.refreshed)
  {
  }

  /** A refresh whose realm is still bound leaves the binding, the retained draft and the log alone. */
  lemma RefreshKeepsBinding(w: World, answer: Answer, v: World)
    requires Reachable(w) && w.pc.Rebinding? && Admits(w.retained, w.pc.identity)
    requires Enabled(w, Proceed(answer)) && v == Apply(w, Proceed(answer))
    ensures v.log == w.log && Admits(v.retained, w.pc.identity) && v.retained.preview == w.retained.preview
    ensures v.retained.uncertain == w.retained.uncertain && v.retained.confirmation == w.retained.confirmation
    ensures v.retained.operationRevision >= w.retained.operationRevision
  {
    ReachableInv(w);
    assert IdentityOf(w.pc.refreshed) == w.pc.identity;
    RebindingIs(w, answer);
  }
}
