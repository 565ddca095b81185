/** The inductive invariant of the settlement executor over whole runs and restarts. */
module SettlementInvariant {
  import opened Common
  import P = RecoveryProtocol
  import I = RecoveryInvariant
  import T = RecoveryTheorems
  import opened SettlementExecutor

  /** The prepare port answered with a draft for the realm of the identity. */
  predicate Prepares(e: Event) {
    e.PrepareReturned? && e.answer.Previewed? && e.answer.preview.network == e.identity.realm && e.answer.parses
  }

  /** The authorise port answered with the draft it was asked to authorise, ready to be submitted. */
  predicate Authorises(e: Event) {
    e.AuthorizeReturned? && e.answer.Previewed? && e.answer.preview.draft == e.draft && e.answer.preview.ready
  }

  /** The submit port answered with the draft it was asked to submit and a transaction. */
  predicate Submits(e: Event) {
    e.SubmitReturned? && e.answer.Previewed? && e.answer.preview.draft == e.draft && e.answer.parses
  }

  /** The submit port answered so that what became of the call is known. */
  predicate Definite(e: Event) {
    e.SubmitReturned? && !e.answer.OutcomeUnknown? && !e.answer.TimedOut? && (e.answer.Previewed? ==> Submits(e))
  }

  /** The draft was seen cancelled before it was broadcast. */
  predicate Cancels(e: Event) {
    e.StatusReturned? && e.answer.CancelledUnseen?
  }

  /** The event shows a preview that is retained from then on. */
  predicate Shows(e: Event) {
    Prepares(e) || Authorises(e) || Submits(e)
  }

  /** What the event log says about the present moment. */
  datatype Tracker = Tracker(
    marked: bool,              // the last mark has been followed by no broadcast, prepare or emptying event
    clean: bool,               // no rebind or restart since the last mark
    exposed: bool,             // the last broadcast is unsettled, and no rebind since its mark
    shown: Option<Preview>,    // the last preview shown, unless it was emptied since
    owner: Option<Identity>,   // the identity bound when its draft was prepared, if it was prepared for it
    consent: bool,             // the last confirmation was affirmative and is neither withdrawn nor used
    asked: Option<string>)     // the draft whose authorisation was asked for last, with no answer or prepare since

  const BLANK := Tracker(false, false, false, None, None, false, None)

  predicate ShownIs(t: Tracker, d: string) {
    t.shown.Some? && t.shown.value.draft == d
  }

  function Update(t: Tracker, e: Event): Tracker {
    match e
    case PrepareReturned(id, answer, bound) =>
      if Prepares(e)
      then t.(shown := Some(answer.preview), owner := if bound then Some(id) else None, marked := false, asked := None)
      else t.(asked := None)
    case Staged(c) => t.(consent := c)
    case Unstaged => t.(consent := false)
    case AuthorizeCalled(_, d) => t.(consent := false, asked := Some(d))
    case AuthorizeReturned(_, answer) => if Authorises(e) then t.(shown := Some(answer.preview), asked := None)
                                         else t.(asked := None)
    case Marked => t.(marked := true, clean := true)
    case Broadcast(_, _) => t.(marked := false, exposed := t.clean)
    case SubmitReturned(_, answer) =>
      t.(exposed := t.exposed && !Definite(e), shown := if Submits(e) then Some(answer.preview) else t.shown)
    case StatusReturned(d, _, _) => t.(exposed := t.exposed && !(Cancels(e) && ShownIs(t, d)))
    case Rebound(carried) =>
      if carried then t.(clean := false, exposed := false, owner := None, consent := false) else BLANK
    case Restarted => BLANK
    case _ => t
  }

  function Track(log: seq<Event>): Tracker {
    if log == [] then BLANK else Update(Track(log[..|log| - 1]), log[|log| - 1])
  }

  /** No event happens that the settlement rules forbid. */
  ghost predicate Allowed(t: Tracker, e: Event, authority: Authority) {
    match e
    case PrepareReturned(id, _, bound) => t.owner.Some? ==> bound && id == t.owner.value
    case Broadcast(id, d) =>
      && t.marked && !t.exposed && ShownIs(t, d) && t.shown.value.ready && (t.owner.Some? ==> id == t.owner.value)
      && (authority.AutomaticDevelopment? ==> OnDevelopmentRealm(id, t.shown.value.network))
    case SubmitReturned(d, _) => ShownIs(t, d)
    case AuthorizeCalled(id, d) =>
      && ShownIs(t, d) && (authority.Explicit? ==> t.consent)
      && (authority.AutomaticDevelopment? ==> OnDevelopmentRealm(id, t.shown.value.network))
    case AuthorizeReturned(d, _) => t.asked == Some(d) && ShownIs(t, d)
    case DustRefreshed(revision, after) => 0 < after <= revision && (after < revision <==> after < MAX_U64)
    case _ => true
  }

  ghost predicate LogAllowed(log: seq<Event>, authority: Authority) {
    forall i :: 0 <= i < |log| ==> Allowed(Track(log[..i]), log[i], authority)
  }

  lemma LogGrows(log: seq<Event>, e: Event, authority: Authority)
    requires LogAllowed(log, authority) && Allowed(Track(log), e, authority)
    ensures Track(log + [e]) == Update(Track(log), e)
    ensures LogAllowed(log + [e], authority)
  {
    assert (log + [e])[..|log|] == log;
    forall i | 0 <= i < |log| + 1
      ensures Allowed(Track((log + [e])[..i]), (log + [e])[i], authority)
    {
      assert (log + [e])[..i] == log[..i];
      if i == |log| {
        assert log[..i] == log;
      }
    }
  }

  /** The program counters of the executor and of its side of the protocol agree. */
  predicate InStep(pc: Pc, x: P.Executor) {
    if HoldsGuard(pc) then x.Guarded?
    else if pc.Waiting? then !x.Idle? && !x.Guarded? && !P.InRelease(x)
    else if pc.Dropping? then P.InRelease(x)
    else x.Idle?
  }

  predicate Recorded(pc: Pc, store: Option<P.Record>) {
    MayBroadcast(pc) ==> DurablySubmitting(store, pc.identity, pc.draft)
  }

  predicate Ordered(r: Retained, pc: Pc) {
    && 0 <= r.chainRevision <= r.operationRevision <= MAX_U64
    && (pc.Refreshing? || pc.Rebinding? || pc.StampRefresh? ==> 0 < pc.after <= r.operationRevision)
    && (pc.Rebinding? ==> 0 <= pc.refreshed.revision <= MAX_U64 && IdentityOf(pc.refreshed) == pc.identity)
  }

  /** An exposed broadcast keeps `uncertain` set and keeps the executor off the broadcast path. */
  predicate Guards(r: Retained, pc: Pc, t: Tracker) {
    && (t.exposed ==> r.uncertain && !pc.ClearUncertain? && !pc.LoadRecord? && !pc.MarkUncertain? && !pc.CallSubmit?)
    && (pc.CallSubmit? ==> t.marked && (t.clean ==> r.uncertain))
  }

  /** The operation has found its draft ready on the named network and may go on to broadcast it. */
  predicate Committed(pc: Pc) {
    pc.CheckUncertain? || pc.ClearUncertain? || pc.LoadRecord? || pc.MarkUncertain? || pc.CallSubmit?
    || (pc.Recovering? && pc.why.Uncertain?)
  }

  /** The retained preview is the last one shown, and so is that of the draft in flight. */
  predicate Drafts(r: Retained, pc: Pc, t: Tracker) {
    && (r.preview.Some? ==> t.shown == r.preview)
    && (CarriesDraft(pc) ==> ShownIs(t, pc.draft))
    && (Committed(pc) ==> t.shown == Some(Preview(pc.draft, pc.network, true)))
    && (pc.Authorizing? ==> t.asked == Some(pc.draft))
  }

  /** An operation that prepares a draft, or waits to submit or submits one. */
  predicate Handles(pc: Pc) {
    pc.Preparing? || pc.Waiting? || HoldsGuard(pc)
  }

  /** The owner of the last draft is still bound, and no operation that handles a draft is anyone else's. */
  predicate Owned(r: Retained, pc: Pc, t: Tracker) {
    t.owner.Some? ==> Admits(r, t.owner.value) && (Handles(pc) ==> pc.identity == t.owner.value)
  }

  predicate Consent(authority: Authority, r: Retained, t: Tracker) {
    authority.Explicit? && r.confirmation == Some(true) ==> t.consent
  }

  /** Everything that mentions neither the protocol state nor past events one by one. */
  predicate Core(authority: Authority, r: Retained, pc: Pc, t: Tracker) {
    Ordered(r, pc) && Guards(r, pc, t) && Drafts(r, pc, t) && Owned(r, pc, t) && Consent(authority, r, t)
  }

  ghost predicate Sound(w: World) {
    Core(w.authority, w.retained, w.pc, Track(w.log)) && LogAllowed(w.log, w.authority)
  }

  /** Extending the log by one allowed event. */
  lemma SoundGrows(w: World, r: Retained, pc: Pc, e: Event)
    requires LogAllowed(w.log, w.authority) && Allowed(Track(w.log), e, w.authority)
    requires Core(w.authority, r, pc, Update(Track(w.log), e))
    ensures Sound(Log(w.(retained := r, pc := pc), e))
  {
    LogGrows(w.log, e, w.authority);
  }

  ghost predicate Rest(w: World) {
    InStep(w.pc, w.protocol.executor) && Recorded(w.pc, w.protocol.store) && Sound(w)
  }

  ghost predicate Inv(w: World) {
    I.Inv(w.protocol) && Rest(w)
  }

  // ------------------------------------------------------- keeping the protocol invariant

  /** Whatever the executor does to the protocol is a protocol step, a restart or nothing. */
  ghost predicate ProtocolMoves(p: P.State, q: P.State) {
    || q == p
    || (exists b :: P.Enabled(p, b) && q == P.Apply(p, b))
    || (exists store, durable :: q == P.Start(store, durable))
  }

  lemma FinishMovesProtocol(w: World)
    requires InStep(w.pc, w.protocol.executor)
    ensures ProtocolMoves(w.protocol, Finish(w).protocol)
  {
    if HoldsGuard(w.pc) {
      assert P.Enabled(w.protocol, P.Execute(P.Drop));
      assert Finish(w).protocol == P.Apply(w.protocol, P.Execute(P.Drop));
    }
  }

  lemma ProceedMovesProtocol(w: World, answer: Answer)
    requires InStep(w.pc, w.protocol.executor)
    ensures
      var q := ProceedApply(Heard(w, answer), answer).protocol;
      q == w.protocol || q == Finish(w).protocol
  {
    var x := Heard(w, answer);
    assert x.pc == w.pc && x.protocol == w.protocol;
  }

  lemma StepMovesProtocol(w: World, a: Step)
    requires InStep(w.pc, w.protocol.executor) && Enabled(w, a)
    ensures ProtocolMoves(w.protocol, Apply(w, a).protocol)
  {
    var p := w.protocol;
    FinishMovesProtocol(w);
    match a
    case Wait => assert P.Enabled(p, P.Execute(P.Advance)) && Apply(w, a).protocol == P.Apply(p, P.Execute(P.Advance));
    case Abandon =>
      if w.pc.Waiting? {
        assert P.Enabled(p, P.Execute(P.Drop)) && Apply(w, a).protocol == P.Apply(p, P.Execute(P.Drop));
      }
    case Start(op) =>
      if op.Submit? {
        assert P.Enabled(p, P.Execute(P.Begin)) && Apply(w, a).protocol == P.Apply(p, P.Execute(P.Begin));
      }
    case Proceed(answer) => ProceedMovesProtocol(w, answer);
    case Select(_) => assert Apply(w, a).protocol == p;
    case Stage(_) => assert Apply(w, a).protocol == p;
    case Unstage => assert Apply(w, a).protocol == p;
    case Background(b) =>
    case Restart(_, _, _, _) =>
  }

  lemma MoveKeepsInv(p: P.State, q: P.State)
    requires I.Inv(p) && ProtocolMoves(p, q)
    ensures I.Inv(q)
  {
    if b :| P.Enabled(p, b) && q == P.Apply(p, b) {
      T.StepKeepsInv(p, b);
    } else if q != p {
      var store, durable :| q == P.Start(store, durable);
      I.StartInv(store, durable);
    }
  }

  // ---------------------------------------------------------- keeping the rest

  lemma BackgroundKeepsRest(w: World, b: P.Step)
    requires Inv(w) && Enabled(w, Background(b))
    ensures Rest(Apply(w, Background(b)))
  {
    match b {
      case Caller(c) => T.CallerFrame(w.protocol, c);
      case Work(ok) =>
        T.WorkerFrame(w.protocol, ok);
        if MayBroadcast(w.pc) {
          T.HoldFreezesStore(w.protocol, b);
        }
    }
  }

  lemma WaitKeepsRest(w: World)
    requires Rest(w) && Enabled(w, Wait)
    ensures Rest(Apply(w, Wait))
  {
    var v := Apply(w, Wait);
    assert v.retained == w.retained && v.log == w.log && v.authority == w.authority;
    assert v.pc.Idle? || v.pc == w.pc || v.pc.CheckPreview?;
  }

  /** Returning from an operation, with the guard dropped if there was one. */
  lemma FinishKeepsRest(w: World)
    requires InStep(w.pc, w.protocol.executor) && Sound(w) && !w.pc.Waiting? && !w.pc.Dropping?
    ensures Rest(Finish(w))
  {
    var v := Finish(w);
    assert v.retained == w.retained && v.log == w.log && v.authority == w.authority;
  }

  lemma AskKeepsRest(w: World, id: Identity, v: World)
    requires Rest(w) && w.pc.Idle? && v == ObserveStarts(w, id)
    ensures Rest(v)
  {
    if w.retained.preview.Some? {
      var d := w.retained.preview.value.draft;
      var pc := Observing(id, d, w.retained.finality);
      AskedCore(w.authority, w.retained, w.pc, Track(w.log), pc, d);
      GoOnKeepsRest(w, w.retained, pc, ObserveCalled(d), v);
    }
  }

  lemma BeginKeepsRest(w: World, op: Operation, v: World)
    requires Rest(w) && w.pc.Idle? && Admits(w.retained, op.identity) && !op.Observe? && v == StartPc(w, op)
    ensures Rest(v)
  {
    assert v.retained == w.retained && v.log == w.log && v.authority == w.authority;
  }

  lemma StartKeepsRest(w: World, op: Operation)
    requires Rest(w) && Enabled(w, Start(op))
    ensures Rest(Apply(w, Start(op)))
  {
    if op.Observe? {
      AskKeepsRest(w, op.identity, StartPc(w, op));
    } else {
      BeginKeepsRest(w, op, StartPc(w, op));
    }
  }

  lemma BindKeepsCore(authority: Authority, r: Retained, pc: Pc, t: Tracker, s: Selected)
    requires Core(authority, r, pc, t) && 0 <= s.revision <= MAX_U64
    ensures Core(authority, Bind(r, s), pc, if Rebinds(r, s) then Update(t, Rebound(CarriesDraft(pc))) else t)
  {
  }

  lemma SelectKeepsRest(w: World, s: Selected)
    requires Rest(w) && 0 <= s.revision <= MAX_U64
    ensures Rest(BindSelected(w, s))
  {
    BindKeepsCore(w.authority, w.retained, w.pc, Track(w.log), s);
    if Rebinds(w.retained, s) {
      SoundGrows(w, Bind(w.retained, s), w.pc, Rebound(CarriesDraft(w.pc)));
    }
  }

  lemma StageKeepsRest(w: World, c: bool)
    requires Rest(w)
    ensures Rest(StageConfirmation(w, c))
  {
    SoundGrows(w, w.retained.(confirmation := Some(c)), w.pc, Staged(c));
  }

  lemma UnstageKeepsRest(w: World)
    requires Rest(w)
    ensures Rest(Apply(w, Unstage))
  {
    SoundGrows(w, w.retained.(confirmation := None), w.pc, Unstaged);
  }

  lemma RestartKeepsRest(w: World, cleared: bool, durable: bool, op: int, chain: int)
    requires Rest(w) && 0 <= chain <= op <= MAX_U64
    ensures Rest(RestartApply(w, cleared, durable, op, chain))
  {
    SoundGrows(w, Retained(None, None, None, false, false, op, chain), Idle, Restarted);
  }

  // ------------------------------------------------------------- keeping it while proceeding

  /** Returning from an awaited port with what it answered heard, and the retained state now `r`. */
  lemma ReturnKeepsRest(w: World, r: Retained, e: Event)
    requires Rest(w) && !w.pc.Waiting? && !w.pc.Dropping? && Allowed(Track(w.log), e, w.authority)
    requires Core(w.authority, r, Idle, Update(Track(w.log), e))
    ensures Rest(Finish(Log(w.(retained := r), e)))
  {
    LogGrows(w.log, e, w.authority);
    var v := Finish(Log(w.(retained := r), e));
    assert v.retained == r && v.log == w.log + [e] && v.authority == w.authority;
    assert v.pc.Idle? || v.pc.Dropping?;
  }

  /** Hearing an answer and going on at `pc`. */
  lemma GoOnKeepsRest(w: World, r: Retained, pc: Pc, e: Event, v: World)
    requires Rest(w) && Allowed(Track(w.log), e, w.authority) && Core(w.authority, r, pc, Update(Track(w.log), e))
    requires InStep(pc, w.protocol.executor) && Recorded(pc, w.protocol.store)
    requires v == Log(w.(retained := r, pc := pc), e)
    ensures Rest(v)
  {
    SoundGrows(w, r, pc, e);
  }

  lemma PreparedCore(authority: Authority, r: Retained, pc: Pc, t: Tracker, e: Event)
    requires Core(authority, r, pc, t) && pc.Preparing? && e.PrepareReturned? && e.identity == pc.identity
    requires e.bound == Admits(r, e.identity)
    ensures Allowed(t, e, authority)
    ensures
      var r' := if Prepares(e) then r.(preview := Some(e.answer.preview)) else r;
      Core(authority, r', Idle, Update(t, e))
  {
  }

  lemma PrepareKeepsRest(w: World, id: Identity, answer: Answer)
    requires Rest(w) && w.pc == Preparing(id)
    ensures Rest(PrepareReturns(Heard(w, answer), id, answer))
  {
    var e := PrepareReturned(id, answer, Admits(w.retained, id));
    PreparedCore(w.authority, w.retained, w.pc, Track(w.log), e);
    if Prepares(e) {
      var r := w.retained.(preview := Some(answer.preview));
      GoOnKeepsRest(w, r, Idle, e, PrepareReturns(Heard(w, answer), id, answer));
    } else {
      ReturnKeepsRest(w, w.retained, e);
      assert w.(retained := w.retained) == w;
    }
  }

  lemma ConsumeKeepsRest(w: World)
    requires Rest(w) && w.pc.TakeConfirmation?
    ensures Rest(Finish(w.(retained := w.retained.(confirmation := None))))
  {
    FinishKeepsRest(w.(retained := w.retained.(confirmation := None)));
  }

  lemma AuthorityCore(authority: Authority, r: Retained, id: Identity, d: string, t: Tracker)
    requires Core(authority, r, TakeConfirmation(id, d), t) && r.preview.Some? && r.preview.value.draft == d
    requires if authority.Explicit? then r.confirmation == Some(true)
             else OnDevelopmentRealm(id, r.preview.value.network)
    ensures Allowed(t, AuthorizeCalled(id, d), authority)
    ensures Core(authority, r.(confirmation := None), Authorizing(id, d), Update(t, AuthorizeCalled(id, d)))
  {
  }

  lemma AuthorizeCallKeepsRest(w: World, id: Identity, d: string)
    requires Rest(w) && w.pc == TakeConfirmation(id, d)
    requires w.retained.preview.Some? && w.retained.preview.value.draft == d
    requires if w.authority.Explicit? then w.retained.confirmation == Some(true)
             else OnDevelopmentRealm(id, w.retained.preview.value.network)
    ensures Rest(Log(w.(retained := w.retained.(confirmation := None), pc := Authorizing(id, d)),
                     AuthorizeCalled(id, d)))
  {
    var r, pc, e := w.retained.(confirmation := None), Authorizing(id, d), AuthorizeCalled(id, d);
    AuthorityCore(w.authority, w.retained, id, d, Track(w.log));
    GoOnKeepsRest(w, r, pc, e, Log(w.(retained := r, pc := pc), e));
  }

  lemma TakeConfirmationKeepsRest(w: World, id: Identity, d: string)
    requires Rest(w) && w.pc == TakeConfirmation(id, d)
    ensures Rest(TakeConfirmationNext(w, id, d))
  {
    if w.retained.preview.None? {
      FinishKeepsRest(w);
    } else {
      ConsumeKeepsRest(w);
      if w.retained.preview.value.draft == d {
        if if w.authority.Explicit? then w.retained.confirmation == Some(true)
           else OnDevelopmentRealm(id, w.retained.preview.value.network) {
          AuthorizeCallKeepsRest(w, id, d);
        }
      }
    }
  }

  /** Two events in one action. */
  lemma SoundGrowsTwice(w: World, r: Retained, pc: Pc, e: Event, f: Event)
    requires LogAllowed(w.log, w.authority) && Allowed(Track(w.log), e, w.authority)
    requires Allowed(Update(Track(w.log), e), f, w.authority)
    requires Core(w.authority, r, pc, Update(Update(Track(w.log), e), f))
    ensures Sound(Log(Log(w, e).(retained := r, pc := pc), f))
  {
    LogGrows(w.log, e, w.authority);
    SoundGrows(Log(w, e), r, pc, f);
  }

  lemma ObservedCore(authority: Authority, r: Retained, pc: Pc, t: Tracker, e: Event, f: Event)
    requires Core(authority, r, pc, t) && pc.Observing? && e.ObserveReturned? && (f.FinalityObserved? || f.Reconciled?)
    ensures Allowed(t, e, authority) && Allowed(Update(t, e), f, authority)
    ensures Core(authority, r, Idle, Update(t, e))
    ensures Core(authority, NextChainRevision(r), Idle, Update(Update(t, e), f))
    ensures Core(authority, NextChainRevision(r), MarkFinality, Update(Update(t, e), f))
  {
  }

  /** An observation completes, with its completion `f` reported. */
  lemma CompletionKeepsRest(w: World, pc: Pc, e: Event, f: Event, v: World)
    requires Rest(w) && w.pc.Observing? && (pc.Idle? || pc.MarkFinality?)
    requires e.ObserveReturned? && (f.FinalityObserved? || f.Reconciled?)
    requires v == Log(Log(w, e).(retained := NextChainRevision(w.retained), pc := pc), f)
    ensures Rest(v)
  {
    ObservedCore(w.authority, w.retained, w.pc, Track(w.log), e, f);
    SoundGrowsTwice(w, NextChainRevision(w.retained), pc, e, f);
  }

  lemma UnobservedKeepsRest(w: World, e: Event)
    requires Rest(w) && w.pc.Observing? && e.ObserveReturned?
    ensures Rest(Finish(Log(w, e)))
  {
    ObservedCore(w.authority, w.retained, w.pc, Track(w.log), e, Reconciled(0));
    ReturnKeepsRest(w, w.retained, e);
    assert w.(retained := w.retained) == w;
  }

  lemma ObserveKeepsRest(w: World, answer: Answer, v: World)
    requires Rest(w) && w.pc.Observing? && v == ObserveReturns(Heard(w, answer), w.pc.finality, answer)
    ensures Rest(v)
  {
    var e, revision := ObserveReturned(w.pc.draft, answer), NextChainRevision(w.retained).operationRevision;
    if answer.IncludedStatus? && !w.pc.finality {
      CompletionKeepsRest(w, MarkFinality, e, FinalityObserved(revision), v);
    } else if answer.IncludedStatus? || answer.OtherStatus? {
      CompletionKeepsRest(w, Idle, e, Reconciled(revision), v);
    } else {
      UnobservedKeepsRest(w, e);
    }
  }

  lemma LoadDraftKeepsRest(w: World, answer: Answer, v: World)
    requires Rest(w) && w.pc.LoadDraft? && v == DraftLoaded(w, w.pc.identity, w.pc.finality, answer)
    ensures Rest(v)
  {
    if v == Finish(w) {
      FinishKeepsRest(w);
    } else {
      var d := w.protocol.store.value.draft.value;
      var pc := Observing(w.pc.identity, d, w.pc.finality);
      AskedCore(w.authority, w.retained, w.pc, Track(w.log), pc, d);
      GoOnKeepsRest(w, w.retained, pc, ObserveCalled(d), v);
    }
  }

  lemma AskedCore(authority: Authority, r: Retained, pc: Pc, t: Tracker, next: Pc, d: string)
    requires Core(authority, r, pc, t) && (pc.Idle? || pc.LoadDraft?) && next.Observing?
    ensures Core(authority, r, next, Update(t, ObserveCalled(d)))
  {
  }

  lemma RefreshKeepsRest(w: World, answer: Answer)
    requires Rest(w) && Enabled(w, Proceed(answer)) && w.pc.Refreshing?
    ensures Rest(RefreshReturns(w, w.pc.identity, w.pc.after, answer))
  {
    FinishKeepsRest(w);
  }

  lemma RebindKeepsRest(w: World, answer: Answer)
    requires Rest(w) && w.pc.Rebinding?
    ensures Rest(ProceedOther(w, answer))
  {
    var w' := w.(pc := StampRefresh(w.pc.after));
    assert Rest(w');
    SelectKeepsRest(w', w.pc.refreshed);
    assert ProceedOther(w, answer) == BindSelected(w', w.pc.refreshed);
  }

  lemma StampKeepsRest(w: World, after: int)
    requires Rest(w) && w.pc == StampRefresh(after)
    ensures Rest(StampRefreshed(w, after))
  {
    var r := NextRevision(w.retained);
    var e := DustRefreshed(r.operationRevision, after);
    assert Core(w.authority, r, Idle, Update(Track(w.log), e));
    SoundGrows(w, r, Idle, e);
  }

  lemma FirstStepsKeepRest(w: World, answer: Answer)
    requires Rest(w) && (w.pc.Preparing? || w.pc.TakeConfirmation?)
    ensures Rest(ProceedApply(Heard(w, answer), answer))
  {
    match w.pc
    case Preparing(id) => PrepareKeepsRest(w, id, answer);
    case TakeConfirmation(id, d) => TakeConfirmationKeepsRest(w, id, d);
  }

  lemma ObservingIs(w: World, answer: Answer)
    requires w.pc.Observing? || w.pc.LoadDraft?
    ensures ProceedApply(Heard(w, answer), answer) ==
            if w.pc.Observing? then ObserveReturns(Heard(w, answer), w.pc.finality, answer)
            else DraftLoaded(w, w.pc.identity, w.pc.finality, answer)
  {
  }

  lemma ObservingKeepsRest(w: World, answer: Answer, v: World)
    requires Rest(w) && (w.pc.Observing? || w.pc.LoadDraft?) && v == ProceedApply(Heard(w, answer), answer)
    ensures Rest(v)
  {
    ObservingIs(w, answer);
    if w.pc.Observing? {
      ObserveKeepsRest(w, answer, v);
    } else {
      LoadDraftKeepsRest(w, answer, v);
    }
  }

  lemma AuthorisedCore(authority: Authority, r: Retained, pc: Pc, t: Tracker, e: Event)
    requires Core(authority, r, pc, t) && pc.Authorizing? && e.AuthorizeReturned? && e.draft == pc.draft
    ensures Allowed(t, e, authority)
    ensures
      var r' := if Authorises(e) then r.(preview := Some(e.answer.preview)) else r;
      Core(authority, r', Idle, Update(t, e))
  {
  }

  lemma AuthorizedKeepsRest(w: World, answer: Answer)
    requires Rest(w) && w.pc.Authorizing?
    ensures Rest(AuthorizeReturns(Heard(w, answer), w.pc.draft, answer))
  {
    var e := AuthorizeReturned(w.pc.draft, answer);
    AuthorisedCore(w.authority, w.retained, w.pc, Track(w.log), e);
    if Authorises(e) {
      var r := w.retained.(preview := Some(answer.preview));
      GoOnKeepsRest(w, r, Idle, e, AuthorizeReturns(Heard(w, answer), w.pc.draft, answer));
    } else {
      ReturnKeepsRest(w, w.retained, e);
      assert w.(retained := w.retained) == w;
    }
  }

  lemma AuthorizingKeepsRest(w: World, answer: Answer)
    requires Rest(w) && w.pc.Authorizing?
    ensures Rest(ProceedApply(Heard(w, answer), answer))
  {
    AuthorizedKeepsRest(w, answer);
    assert ProceedApply(Heard(w, answer), answer) == AuthorizeReturns(Heard(w, answer), w.pc.draft, answer);
  }

  lemma ReadingKeepsRest(w: World, answer: Answer)
    requires Rest(w) && (w.pc.MarkFinality? || w.pc.ReadChainRevision?)
    ensures Rest(ProceedApply(w, answer))
  {
    if w.pc.ReadChainRevision? {
      ChainReadKeepsRest(w, w.pc.identity, w.retained.chainRevision);
      assert ProceedApply(w, answer) == ChainRevisionRead(w, w.pc.identity, w.retained.chainRevision);
    } else {
      var v := w.(retained := w.retained.(finality := true), pc := Idle);
      assert ProceedApply(w, answer) == v;
      assert Core(v.authority, v.retained, v.pc, Track(v.log));
    }
  }

  lemma ChainReadKeepsRest(w: World, id: Identity, after: int)
    requires Rest(w) && w.pc == ReadChainRevision(id) && after == w.retained.chainRevision
    ensures Rest(ChainRevisionRead(w, id, after))
  {
    if after > 0 {
      var e, pc := RefreshCalled(after), Refreshing(id, after);
      assert Core(w.authority, w.retained, pc, Update(Track(w.log), e));
      SoundGrows(w, w.retained, pc, e);
    } else {
      FinishKeepsRest(w);
    }
  }

  lemma RefreshingKeepsRest(w: World, answer: Answer)
    requires Rest(w) && Enabled(w, Proceed(answer)) && w.pc.Refreshing?
    ensures Rest(ProceedApply(w, answer))
  {
    RefreshKeepsRest(w, answer);
    assert ProceedApply(w, answer) == RefreshReturns(w, w.pc.identity, w.pc.after, answer);
  }

  lemma RebindingKeepsRest(w: World, answer: Answer)
    requires Rest(w) && w.pc.Rebinding?
    ensures Rest(ProceedApply(w, answer))
  {
    RebindKeepsRest(w, answer);
    assert ProceedApply(w, answer) == ProceedOther(w, answer);
  }

  lemma StampingKeepsRest(w: World, answer: Answer)
    requires Rest(w) && w.pc.StampRefresh?
    ensures Rest(ProceedApply(w, answer))
  {
    StampKeepsRest(w, w.pc.after);
    assert ProceedApply(w, answer) == StampRefreshed(w, w.pc.after);
  }

  lemma OtherKeepsRest(w: World, answer: Answer)
    requires Rest(w) && Enabled(w, Proceed(answer)) && !HoldsGuard(w.pc)
    ensures Rest(ProceedApply(Heard(w, answer), answer))
  {
    if w.pc.Preparing? || w.pc.TakeConfirmation? {
      FirstStepsKeepRest(w, answer);
    } else if w.pc.Refreshing? {
      RefreshingKeepsRest(w, answer);
    } else if w.pc.Rebinding? {
      RebindingKeepsRest(w, answer);
    } else if w.pc.StampRefresh? {
      StampingKeepsRest(w, answer);
    } else if w.pc.Observing? || w.pc.LoadDraft? {
      ObservingKeepsRest(w, answer, ProceedApply(Heard(w, answer), answer));
    } else if w.pc.Authorizing? {
      AuthorizingKeepsRest(w, answer);
    } else {
      ReadingKeepsRest(w, answer);
    }
  }

  lemma LookKeepsRest(w: World, answer: Answer)
    requires Rest(w) && (w.pc.CheckPreview? || w.pc.ReadPreview?)
    ensures Rest(ProceedApply(w, answer))
  {
    FinishKeepsRest(w);
  }

  lemma StatusCore(authority: Authority, r: Retained, pc: Pc, t: Tracker, e: Event)
    requires Core(authority, r, pc, t) && pc.Recovering? && e.StatusReturned? && e.draft == pc.draft
    ensures Allowed(t, e, authority)
    ensures Cancels(e) ==> pc.why.Uncertain? ==>
              Core(authority, r, ClearUncertain(pc.identity, pc.draft, pc.network), Update(t, e))
    ensures Core(authority, r, Idle, Update(t, e)) && Core(authority, r.(finality := false), Idle, Update(t, e))
  {
  }

  lemma CancelKeepsRest(w: World, e: Event, v: World)
    requires Rest(w) && w.pc.Recovering? && w.pc.why.Uncertain? && Cancels(e) && e.draft == w.pc.draft
    requires v == Log(w, e).(pc := ClearUncertain(w.pc.identity, w.pc.draft, w.pc.network))
    ensures Rest(v)
  {
    StatusCore(w.authority, w.retained, w.pc, Track(w.log), e);
    GoOnKeepsRest(w, w.retained, ClearUncertain(w.pc.identity, w.pc.draft, w.pc.network), e, v);
  }

  lemma RecoveredKeepsRest(w: World, e: Event, r: Retained)
    requires Rest(w) && w.pc.Recovering? && e.StatusReturned? && e.draft == w.pc.draft
    requires r == w.retained || r == w.retained.(finality := false)
    ensures Rest(Finish(Log(w.(retained := r), e)))
  {
    StatusCore(w.authority, w.retained, w.pc, Track(w.log), e);
    ReturnKeepsRest(w, r, e);
  }

  lemma RecoverReturnsIs(w: World, answer: Answer, e: Event, v: World)
    requires w.pc.Recovering? && e == StatusReturned(w.pc.draft, w.pc.why, answer)
    requires v == RecoverReturns(Heard(w, answer), answer)
    ensures v ==
            if answer.CancelledUnseen? && w.pc.why.Uncertain?
            then Log(w, e).(pc := ClearUncertain(w.pc.identity, w.pc.draft, w.pc.network))
            else if answer.TransactionSeen? && w.pc.why.AfterUnknown?
            then Finish(Log(w.(retained := w.retained.(finality := false)), e))
            else Finish(Log(w.(retained := w.retained), e))
  {
    assert w.(retained := w.retained) == w;
  }

  lemma RecoverKeepsRest(w: World, answer: Answer, v: World)
    requires Rest(w) && w.pc.Recovering? && v == RecoverReturns(Heard(w, answer), answer)
    ensures Rest(v)
  {
    var e := StatusReturned(w.pc.draft, w.pc.why, answer);
    RecoverReturnsIs(w, answer, e, v);
    if answer.CancelledUnseen? && w.pc.why.Uncertain? {
      CancelKeepsRest(w, e, v);
    } else if answer.TransactionSeen? && w.pc.why.AfterUnknown? {
      RecoveredKeepsRest(w, e, w.retained.(finality := false));
    } else {
      RecoveredKeepsRest(w, e, w.retained);
    }
  }

  /** What the retained state becomes when the submit port answers. */
  function AfterSubmit(r: Retained, e: Event): Retained
    requires e.SubmitReturned?
  {
    if Submits(e) then r.(preview := Some(e.answer.preview), uncertain := false, finality := false)
    else if Definite(e) then r.(uncertain := false) else r
  }

  lemma SubmittedCore(authority: Authority, r: Retained, pc: Pc, t: Tracker, e: Event)
    requires Core(authority, r, pc, t) && pc.Broadcasting? && e.SubmitReturned? && e.draft == pc.draft
    ensures Allowed(t, e, authority) && Core(authority, AfterSubmit(r, e), Idle, Update(t, e))
    ensures !Definite(e) ==> Core(authority, r, Recovering(pc.identity, pc.draft, "", AfterUnknown), Update(t, e))
  {
  }

  lemma BroadcastReturnsIs(w: World, id: Identity, d: string, answer: Answer, e: Event)
    requires w.pc == Broadcasting(id, d) && e == SubmitReturned(d, answer)
    ensures BroadcastReturns(Heard(w, answer), id, d, answer) ==
            if answer.OutcomeUnknown? then Log(w.(pc := Recovering(id, d, "", AfterUnknown)), e)
            else Finish(Log(w.(retained := AfterSubmit(w.retained, e)), e))
  {
    assert w.(retained := w.retained) == w;
  }

  lemma BroadcastKeepsRest(w: World, answer: Answer, v: World)
    requires Rest(w) && w.pc.Broadcasting?
    requires v == BroadcastReturns(Heard(w, answer), w.pc.identity, w.pc.draft, answer)
    ensures Rest(v)
  {
    var id, d := w.pc.identity, w.pc.draft;
    var e := SubmitReturned(d, answer);
    SubmittedCore(w.authority, w.retained, w.pc, Track(w.log), e);
    BroadcastReturnsIs(w, id, d, answer, e);
    if answer.OutcomeUnknown? {
      GoOnKeepsRest(w, w.retained, Recovering(id, d, "", AfterUnknown), e, v);
    } else {
      ReturnKeepsRest(w, AfterSubmit(w.retained, e), e);
    }
  }

  lemma MarkKeepsRest(w: World, answer: Answer)
    requires Rest(w) && w.pc.MarkUncertain?
    ensures Rest(ProceedApply(w, answer))
  {
    var pc := CallSubmit(w.pc.identity, w.pc.draft, w.pc.network);
    MarkedKeepsRest(w, pc);
    assert ProceedApply(w, answer) == Log(w.(retained := w.retained.(uncertain := true), pc := pc), Marked);
  }

  lemma MarkedKeepsRest(w: World, pc: Pc)
    requires Rest(w) && w.pc.MarkUncertain? && pc == CallSubmit(w.pc.identity, w.pc.draft, w.pc.network)
    ensures Rest(Log(w.(retained := w.retained.(uncertain := true), pc := pc), Marked))
  {
    SoundGrows(w, w.retained.(uncertain := true), pc, Marked);
  }

  lemma BroadcastIsAllowed(w: World, id: Identity, d: string, n: string)
    requires Rest(w) && w.pc == CallSubmit(id, d, n)
    requires w.authority.AutomaticDevelopment? ==> OnDevelopmentRealm(id, n)
    ensures Rest(Log(w.(pc := Broadcasting(id, d)), Broadcast(id, d)))
  {
    SoundGrows(w, w.retained, Broadcasting(id, d), Broadcast(id, d));
  }

  lemma CallKeepsRest(w: World, answer: Answer)
    requires Rest(w) && w.pc.CallSubmit?
    ensures Rest(ProceedApply(w, answer))
  {
    if w.authority.AutomaticDevelopment? && !OnDevelopmentRealm(w.pc.identity, w.pc.network) {
      FinishKeepsRest(w);
      assert ProceedApply(w, answer) == Finish(w);
    } else {
      var id, d := w.pc.identity, w.pc.draft;
      BroadcastIsAllowed(w, id, d, w.pc.network);
      assert ProceedApply(w, answer) == Log(w.(pc := Broadcasting(id, d)), Broadcast(id, d));
    }
  }

  lemma DecideKeepsRest(w: World, answer: Answer)
    requires Rest(w) && (w.pc.CheckUncertain? || w.pc.ClearUncertain? || w.pc.LoadRecord?)
    ensures Rest(ProceedApply(w, answer))
  {
    FinishKeepsRest(w);
  }

  lemma AwaitedIs(w: World, answer: Answer)
    requires w.pc.Recovering? || w.pc.Broadcasting?
    ensures ProceedApply(Heard(w, answer), answer) ==
            if w.pc.Recovering? then RecoverReturns(Heard(w, answer), answer)
            else BroadcastReturns(Heard(w, answer), w.pc.identity, w.pc.draft, answer)
  {
  }

  lemma AwaitedKeepsRest(w: World, answer: Answer, v: World)
    requires Rest(w) && (w.pc.Recovering? || w.pc.Broadcasting?) && v == ProceedApply(Heard(w, answer), answer)
    ensures Rest(v)
  {
    AwaitedIs(w, answer);
    if w.pc.Recovering? {
      RecoverKeepsRest(w, answer, v);
    } else {
      BroadcastKeepsRest(w, answer, v);
    }
  }

  lemma UnheardKeepsRest(w: World, answer: Answer)
    requires Rest(w) && HoldsGuard(w.pc) && !w.pc.Recovering? && !w.pc.Broadcasting?
    ensures Rest(ProceedApply(w, answer))
  {
    match w.pc
    case CheckPreview(_, _) => LookKeepsRest(w, answer);
    case ReadPreview(_, _) => LookKeepsRest(w, answer);
    case MarkUncertain(_, _, _) => MarkKeepsRest(w, answer);
    case CallSubmit(_, _, _) => CallKeepsRest(w, answer);
    case _ => DecideKeepsRest(w, answer);
  }

  lemma GuardedKeepsRest(w: World, answer: Answer)
    requires Rest(w) && HoldsGuard(w.pc)
    ensures Rest(ProceedApply(Heard(w, answer), answer))
  {
    if w.pc.Recovering? || w.pc.Broadcasting? {
      AwaitedKeepsRest(w, answer, ProceedApply(Heard(w, answer), answer));
    } else {
      UnheardKeepsRest(w, answer);
      assert Heard(w, answer) == w;
    }
  }

  lemma ProceedKeepsRest(w: World, answer: Answer)
    requires Rest(w) && Enabled(w, Proceed(answer))
    ensures Rest(Apply(w, Proceed(answer)))
  {
    if HoldsGuard(w.pc) { GuardedKeepsRest(w, answer); } else { OtherKeepsRest(w, answer); }
  }

  lemma AbandonKeepsRest(w: World)
    requires Rest(w) && Enabled(w, Abandon)
    ensures Rest(Apply(w, Abandon))
  {
    if !w.pc.Waiting? { FinishKeepsRest(w); }
  }

  lemma StepKeepsRest(w: World, a: Step)
    requires Inv(w) && Enabled(w, a)
    ensures Rest(Apply(w, a))
  {
    match a
    case Background(b) => BackgroundKeepsRest(w, b);
    case Wait => WaitKeepsRest(w);
    case Abandon => AbandonKeepsRest(w);
    case Start(op) => StartKeepsRest(w, op);
    case Proceed(answer) => ProceedKeepsRest(w, answer);
    case Select(s) => SelectKeepsRest(w, s);
    case Stage(c) => StageKeepsRest(w, c);
    case Unstage => UnstageKeepsRest(w);
    case Restart(cleared, durable, op, chain) => RestartKeepsRest(w, cleared, durable, op, chain);
  }

  lemma StepKeepsInv(w: World, a: Step)
    requires Inv(w) && Enabled(w, a)
    ensures Inv(Apply(w, a))
  {
    StepMovesProtocol(w, a);
    MoveKeepsInv(w.protocol, Apply(w, a).protocol);
    StepKeepsRest(w, a);
  }
}
