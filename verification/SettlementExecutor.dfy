/**
 The DUST settlement executor on top of the recovery-persistence protocol.

 One operation is in flight at a time, as the driver's single-flight admission
 guarantees; other threads may rebind the realm or stage a confirmation between any
 two of its lock acquisitions, every port answers arbitrarily, and the future may be
 dropped wherever it awaits.  A restart keeps only the store.
 */
module SettlementExecutor {
  import opened Common
  import P = RecoveryProtocol

  type Identity = P.Identity

  const MAX_U64: int := 0xFFFF_FFFF_FFFF_FFFF

  datatype Selected = Selected(profile: string, realm: string, generation: int, revision: int)

  function IdentityOf(s: Selected): Identity {
    P.Identity(s.profile, s.realm, s.generation)
  }

  datatype Preview = Preview(draft: string, network: string, ready: bool)

  datatype Retained = Retained(
    bound: Option<Selected>,
    preview: Option<Preview>,
    confirmation: Option<bool>,
    finality: bool,
    uncertain: bool,
    operationRevision: int,
    chainRevision: int)

  function Rebinds(r: Retained, s: Selected): bool {
    r.bound.None? || IdentityOf(r.bound.value) != IdentityOf(s)
  }

  function Bind(r: Retained, s: Selected): Retained {
    var base := if Rebinds(r, s)
                 then r.(preview := None, confirmation := None, finality := false, uncertain := false,
                         chainRevision := 0)
                 else r;
    base.(operationRevision := P.Max(r.operationRevision, s.revision), bound := Some(s))
  }

  function Increment(x: int): int {
    if x >= MAX_U64 then MAX_U64 else x + 1
  }

  function NextRevision(r: Retained): Retained {
    r.(operationRevision := Increment(r.operationRevision))
  }

  function NextChainRevision(r: Retained): Retained {
    r.(operationRevision := Increment(r.operationRevision), chainRevision := Increment(r.operationRevision))
  }

  datatype Operation =
    | Prepare(identity: Identity)
    | Authorize(identity: Identity, draft: string)
    | Submit(identity: Identity, draft: string)
    | Observe(identity: Identity)
    | Refresh(identity: Identity)

  /** Why a status or reconcile call is being made. */
  datatype Recovery = NoPreview | Uncertain | AfterUnknown

  /** The operation in flight, by the action it is about to perform or the port it awaits. */
  datatype Pc =
    | Idle
    | Preparing(identity: Identity)
    | TakeConfirmation(identity: Identity, draft: string)
    | Authorizing(identity: Identity, draft: string)
    | Waiting(identity: Identity, draft: string)
    | CheckPreview(identity: Identity, draft: string)
    | ReadPreview(identity: Identity, draft: string)
    | CheckUncertain(identity: Identity, draft: string, network: string)
    | Recovering(identity: Identity, draft: string, network: string, why: Recovery)
    | ClearUncertain(identity: Identity, draft: string, network: string)
    | LoadRecord(identity: Identity, draft: string, network: string)
    | MarkUncertain(identity: Identity, draft: string, network: string)
    | CallSubmit(identity: Identity, draft: string, network: string)
    | Broadcasting(identity: Identity, draft: string)
    | Dropping
    | LoadDraft(identity: Identity, finality: bool)
    | Observing(identity: Identity, draft: string, finality: bool)
    | MarkFinality
    | ReadChainRevision(identity: Identity)
    | Refreshing(identity: Identity, after: int)
    | Rebinding(identity: Identity, refreshed: Selected, after: int)
    | StampRefresh(after: int)

  /** What a port answers; an answer that does not fit the awaited port is a failure. */
  datatype Answer =
    | Go
    | Failed
    | Previewed(preview: Preview, parses: bool)
    | TransactionSeen
    | CancelledUnseen
    | OutcomeUnknown
    | TimedOut
    | IncludedStatus   // the status port said included
    | OtherStatus      // it did not, and the reconcile port answered
    | DustReady
    | Synced(refreshed: Selected)

  /**
   What the outside sees: the calls made on the ports, what each port answered, what the user and the
   realm selection did, and the completions reported.
   */
  datatype Event =
    | PrepareReturned(identity: Identity, answer: Answer, bound: bool)   // `bound`: `identity` is the bound one then
    | Staged(confirmed: bool)
    | Unstaged
    | AuthorizeCalled(identity: Identity, draft: string)
    | AuthorizeReturned(draft: string, answer: Answer)
    | Marked                                                             // the submission is marked uncertain
    | Broadcast(identity: Identity, draft: string)                       // the submit port is called
    | SubmitReturned(draft: string, answer: Answer)
    | StatusReturned(draft: string, why: Recovery, answer: Answer)
    | ObserveCalled(draft: string)
    | ObserveReturned(draft: string, answer: Answer)
    | FinalityObserved(revision: int)
    | Reconciled(revision: int)
    | RefreshCalled(after: int)                                          // the DUST status is asked for
    | DustRefreshed(revision: int, after: int)
    | Rebound(carried: bool)   // `carried`: it landed on an operation that carries a draft
    | Restarted

  datatype Authority = Explicit | AutomaticDevelopment

  datatype World = World(
    authority: Authority, protocol: P.State, retained: Retained, pc: Pc, log: seq<Event>)

  predicate HoldsGuard(pc: Pc) {
    pc.CheckPreview? || pc.ReadPreview? || pc.CheckUncertain? || pc.Recovering? || pc.ClearUncertain?
    || pc.LoadRecord? || pc.MarkUncertain? || pc.CallSubmit? || pc.Broadcasting?
  }

  /** From the store check to the end of the call the store holds the Submitting record. */
  predicate MayBroadcast(pc: Pc) {
    pc.MarkUncertain? || pc.CallSubmit? || pc.Broadcasting? || (pc.Recovering? && pc.why.AfterUnknown?)
  }

  /** The operation is authorising a draft, or has read the preview of the one it submits. */
  predicate CarriesDraft(pc: Pc) {
    pc.Authorizing? || pc.CheckUncertain? || pc.ClearUncertain? || pc.LoadRecord? || MayBroadcast(pc)
    || (pc.Recovering? && !pc.why.NoPreview?)
  }

  /** The operation returns; a guard it holds is dropped. */
  function Finish(w: World): World {
    if HoldsGuard(w.pc) then w.(pc := Dropping, protocol := P.ExecutorApply(w.protocol, P.Drop))
    else w.(pc := Idle)
  }

  function Log(w: World, e: Event): World {
    w.(log := w.log + [e])
  }

  predicate OnDevelopmentRealm(identity: Identity, network: string) {
    identity.realm == "undeployed" && network == "undeployed"
  }

  // ------------------------------------------------ prepare, authorize, observe, refresh

  function PrepareReturns(w: World, id: Identity, answer: Answer): World {
    if answer.Previewed? && answer.preview.network == id.realm && answer.parses
    then w.(pc := Idle, retained := w.retained.(preview := Some(answer.preview)))
    else Finish(w)
  }

  function TakeConfirmationNext(w: World, id: Identity, draft: string): World {
    var r := w.retained;
    if r.preview.None? then Finish(w)
    else
      var w' := w.(retained := r.(confirmation := None));
      if r.preview.value.draft != draft then Finish(w')
      else if w.authority.Explicit? then
        if r.confirmation == Some(true)
        then Log(w'.(pc := Authorizing(id, draft)), AuthorizeCalled(id, draft))
        else Finish(w')
      else if OnDevelopmentRealm(id, r.preview.value.network)
      then Log(w'.(pc := Authorizing(id, draft)), AuthorizeCalled(id, draft))
      else Finish(w')
  }

  function AuthorizeReturns(w: World, draft: string, answer: Answer): World {
    if answer.Previewed? && answer.preview.draft == draft && answer.preview.ready
    then w.(pc := Idle, retained := w.retained.(preview := Some(answer.preview)))
    else Finish(w)
  }

  /** `execute_observe` asks about the retained draft or, failing that, about the stored record's. */
  function ObserveStarts(w: World, id: Identity): World {
    var p, f := w.retained.preview, w.retained.finality;
    if p.Some? then Log(w.(pc := Observing(id, p.value.draft, f)), ObserveCalled(p.value.draft))
    else w.(pc := LoadDraft(id, f))
  }

  function DraftLoaded(w: World, id: Identity, finality: bool, answer: Answer): World {
    var record := w.protocol.store;
    if answer.Go? && record.Some? && record.value.identity == id && record.value.draft.Some?
    then Log(w.(pc := Observing(id, record.value.draft.value, finality)), ObserveCalled(record.value.draft.value))
    else Finish(w)
  }

  function ObserveReturns(w: World, finality: bool, answer: Answer): World {
    var r := NextChainRevision(w.retained);
    if answer.IncludedStatus? && !finality
    then Log(w.(retained := r, pc := MarkFinality), FinalityObserved(r.operationRevision))
    else if answer.IncludedStatus? || answer.OtherStatus?
    then Log(w.(retained := r, pc := Idle), Reconciled(r.operationRevision))
    else Finish(w)
  }

  function ChainRevisionRead(w: World, id: Identity, after: int): World {
    if after > 0 then Log(w.(pc := Refreshing(id, after)), RefreshCalled(after)) else Finish(w)
  }

  function RefreshReturns(w: World, id: Identity, after: int, answer: Answer): World {
    match answer
    case DustReady => w.(pc := StampRefresh(after))
    case Synced(s) => if IdentityOf(s) == id then w.(pc := Rebinding(id, s, after)) else Finish(w)
    case _ => Finish(w)
  }

  function StampRefreshed(w: World, after: int): World {
    var r := NextRevision(w.retained);
    Log(w.(retained := r, pc := Idle), DustRefreshed(r.operationRevision, after))
  }

  function StageConfirmation(w: World, confirmed: bool): World {
    Log(w.(retained := w.retained.(confirmation := Some(confirmed))), Staged(confirmed))
  }

  function BindSelected(w: World, s: Selected): World {
    var w' := w.(retained := Bind(w.retained, s));
    if Rebinds(w.retained, s) then Log(w', Rebound(CarriesDraft(w.pc))) else w'
  }

  // --------------------------------------------------------------------- submit

  /** The record the store holds is the authorised draft, durably Submitting. */
  predicate DurablySubmitting(store: Option<P.Record>, id: Identity, draft: string) {
    store.Some? && store.value.identity == id && store.value.state == P.Submitting && store.value.draft == Some(draft)
  }

  function SubmitLooks(w: World, id: Identity, d: string): World
    requires w.pc.CheckPreview? || w.pc.ReadPreview?
  {
    var p := w.retained.preview;
    if w.pc.CheckPreview? then
      w.(pc := if p.None? then Recovering(id, d, "", NoPreview) else ReadPreview(id, d))
    else if p.None? || p.value.draft != d || !p.value.ready then Finish(w)
    else w.(pc := CheckUncertain(id, d, p.value.network))
  }

  function RecoverReturns(w: World, answer: Answer): World
    requires w.pc.Recovering?
  {
    var pc := w.pc;
    match answer
    case TransactionSeen =>
      if pc.why.AfterUnknown? then Finish(w.(retained := w.retained.(finality := false))) else Finish(w)
    case CancelledUnseen =>
      if pc.why.Uncertain? then w.(pc := ClearUncertain(pc.identity, pc.draft, pc.network)) else Finish(w)
    case _ => Finish(w)
  }

  function BroadcastReturns(w: World, id: Identity, d: string, answer: Answer): World {
    var r := w.retained;
    match answer
    case Previewed(p, parses) =>
      if p.draft == d && parses
      then Finish(w.(retained := r.(preview := Some(p), uncertain := false, finality := false)))
      else Finish(w)
    case OutcomeUnknown => w.(pc := Recovering(id, d, "", AfterUnknown))
    case TimedOut => Finish(w)
    case _ => Finish(w.(retained := r.(uncertain := false)))
  }

  function SubmitDecides(w: World, answer: Answer): World
    requires w.pc.CheckUncertain? || w.pc.ClearUncertain? || w.pc.LoadRecord? || w.pc.MarkUncertain? || w.pc.CallSubmit?
  {
    var id, d, n := w.pc.identity, w.pc.draft, w.pc.network;
    var r := w.retained;
    match w.pc
    case CheckUncertain(_, _, _) =>
      w.(pc := if r.uncertain then Recovering(id, d, n, Uncertain) else LoadRecord(id, d, n))
    case ClearUncertain(_, _, _) => w.(retained := r.(uncertain := false), pc := LoadRecord(id, d, n))
    case LoadRecord(_, _, _) =>
      if answer.Go? && DurablySubmitting(w.protocol.store, id, d) then w.(pc := MarkUncertain(id, d, n))
      else Finish(w)
    case MarkUncertain(_, _, _) => Log(w.(retained := r.(uncertain := true), pc := CallSubmit(id, d, n)), Marked)
    case CallSubmit(_, _, _) =>
      if w.authority.AutomaticDevelopment? && !OnDevelopmentRealm(id, n) then Finish(w)
      else Log(w.(pc := Broadcasting(id, d)), Broadcast(id, d))
  }

  // ---------------------------------------------------------------------- steps

  datatype Step =
    | Background(step: P.Step)       // callers and the persistence worker
    | Wait                           // the executor's own protocol actions
    | Abandon                        // the future is dropped where it awaits
    | Start(operation: Operation)
    | Proceed(answer: Answer)
    | Select(selected: Selected)
    | Stage(confirmed: bool)
    | Unstage
    | Restart(cleared: bool, durable: bool, operationRevision: int, chainRevision: int)

  predicate Awaits(pc: Pc) {
    pc.Preparing? || pc.Authorizing? || pc.Recovering? || pc.Broadcasting? || pc.Observing? || pc.Refreshing?
  }

  /** `validate_bound`: the operation's identity is the bound one. */
  predicate Admits(r: Retained, id: Identity) {
    r.bound.Some? && IdentityOf(r.bound.value) == id
  }

  predicate Enabled(w: World, a: Step) {
    match a
    case Background(b) => !b.Execute? && P.Enabled(w.protocol, b)
    case Wait => (w.pc.Waiting? || w.pc.Dropping?) && P.ExecutorEnabled(w.protocol, P.Advance)
    case Abandon => Awaits(w.pc) || (w.pc.Waiting? && w.protocol.executor.Parked?)
    case Start(op) => w.pc.Idle? && Admits(w.retained, op.identity)
    case Proceed(answer) =>
      && !w.pc.Idle? && !w.pc.Waiting? && !w.pc.Dropping?
      && (answer.Synced? ==> 0 <= answer.refreshed.revision <= MAX_U64)
    case Select(s) => 0 <= s.revision <= MAX_U64
    case Stage(_) => true
    case Unstage => true
    case Restart(_, _, op, chain) => 0 <= chain <= op <= MAX_U64
  }

  function StartPc(w: World, op: Operation): World {
    match op
    case Prepare(id) => w.(pc := Preparing(id))
    case Authorize(id, d) => w.(pc := TakeConfirmation(id, d))
    case Submit(id, d) => w.(pc := Waiting(id, d), protocol := P.ExecutorApply(w.protocol, P.Begin))
    case Observe(id) => ObserveStarts(w, id)
    case Refresh(id) => w.(pc := ReadChainRevision(id))
  }

  /** One protocol action of the executor: waiting for a checkpoint, or releasing one. */
  function WaitApply(w: World): World {
    var p := P.ExecutorApply(w.protocol, P.Advance);
    w.(protocol := p,
       pc := if p.executor.Idle? then Idle
             else if w.pc.Waiting? && p.executor.Guarded? then CheckPreview(w.pc.identity, w.pc.draft)
             else w.pc)
  }

  function ProceedOther(w: World, answer: Answer): World {
    match w.pc
    case Preparing(id) => PrepareReturns(w, id, answer)
    case TakeConfirmation(id, d) => TakeConfirmationNext(w, id, d)
    case Authorizing(_, d) => AuthorizeReturns(w, d, answer)
    case LoadDraft(id, f) => DraftLoaded(w, id, f, answer)
    case Observing(_, _, f) => ObserveReturns(w, f, answer)
    case MarkFinality => w.(retained := w.retained.(finality := true), pc := Idle)
    case ReadChainRevision(id) =>
      ChainRevisionRead(w, id, w.retained.chainRevision)
    case Refreshing(id, after) => RefreshReturns(w, id, after, answer)
    case Rebinding(_, s, after) => BindSelected(w.(pc := StampRefresh(after)), s)
    case StampRefresh(after) => StampRefreshed(w, after)
    case _ => w
  }

  function ProceedApply(w: World, answer: Answer): World {
    match w.pc
    case CheckPreview(id, d) => SubmitLooks(w, id, d)
    case ReadPreview(id, d) => SubmitLooks(w, id, d)
    case Recovering(_, _, _, _) => RecoverReturns(w, answer)
    case Broadcasting(id, d) => BroadcastReturns(w, id, d, answer)
    case CheckUncertain(_, _, _) => SubmitDecides(w, answer)
    case ClearUncertain(_, _, _) => SubmitDecides(w, answer)
    case LoadRecord(_, _, _) => SubmitDecides(w, answer)
    case MarkUncertain(_, _, _) => SubmitDecides(w, answer)
    case CallSubmit(_, _, _) => SubmitDecides(w, answer)
    case _ => ProceedOther(w, answer)
  }

  /** What a port that is awaited answers is seen before anything is done about it. */
  function Heard(w: World, answer: Answer): World {
    match w.pc
    case Preparing(id) => Log(w, PrepareReturned(id, answer, Admits(w.retained, id)))
    case Authorizing(_, d) => Log(w, AuthorizeReturned(d, answer))
    case Broadcasting(_, d) => Log(w, SubmitReturned(d, answer))
    case Recovering(_, d, _, why) => Log(w, StatusReturned(d, why, answer))
    case Observing(_, d, _) => Log(w, ObserveReturned(d, answer))
    case _ => w
  }

  /** A new process: only the store survives, and start-up may clear it. */
  function RestartApply(w: World, cleared: bool, durable: bool, operation: int, chain: int): World {
    Log(w.(protocol := P.Start(if cleared then None else w.protocol.store, durable),
           retained := Retained(None, None, None, false, false, operation, chain),
           pc := Idle), Restarted)
  }

  function Apply(w: World, a: Step): World
    requires Enabled(w, a)
  {
    match a
    case Background(b) => w.(protocol := P.Apply(w.protocol, b))
    case Wait => WaitApply(w)
    case Abandon =>
      if w.pc.Waiting? then w.(pc := Idle, protocol := P.ExecutorApply(w.protocol, P.Drop)) else Finish(w)
    case Start(op) => StartPc(w, op)
    case Proceed(answer) => ProceedApply(Heard(w, answer), answer)
    case Select(s) => BindSelected(w, s)
    case Stage(c) => StageConfirmation(w, c)
    case Unstage => Log(w.(retained := w.retained.(confirmation := None)), Unstaged)
    case Restart(cleared, durable, op, chain) => RestartApply(w, cleared, durable, op, chain)
  }

  predicate Runs(w: World, steps: seq<Step>, v: World)
    decreases |steps|
  {
    if steps == [] then w == v
    else Enabled(w, steps[0]) && Runs(Apply(w, steps[0]), steps[1..], v)
  }

  function Boot(authority: Authority, store: Option<P.Record>, durable: bool, operation: int, chain: int): World {
    World(authority, P.Start(store, durable), Retained(None, None, None, false, false, operation, chain), Idle, [])
  }

  /** A process has just started, with revisions recovered in order. */
  predicate Booted(w: World) {
    var r := w.retained;
    && 0 <= r.chainRevision <= r.operationRevision <= MAX_U64
    && w == Boot(w.authority, w.protocol.store, w.protocol.atomics.durable, r.operationRevision, r.chainRevision)
  }

  ghost predicate Reachable(w: World) {
    exists boot, steps :: Booted(boot) && Runs(boot, steps, w)
  }
}
