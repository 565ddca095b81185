/** Where the drafts come from that the settlement executor submits and asks about, read off the steps of a run. */
module SettlementOrigins {
  import opened Common
  import P = RecoveryProtocol
  import I = RecoveryInvariant
  import T = RecoveryTheorems
  import opened SettlementExecutor
  import opened SettlementInvariant
  import opened SettlementTheorems

  /** What the steps alone say: the records handed to `enqueue` since the last restart, and all there ever were. */
  datatype Origins = Origins(recent: set<P.Record>, known: set<P.Record>)

  function Gather(o: Origins, a: Step): Origins {
    match a
    case Background(Caller(Lock(record))) => Origins(o.recent + {record}, o.known + {record})
    case Restart(_, _, _, _) => o.(recent := {})
    case _ => o
  }

  function Gathered(o: Origins, steps: seq<Step>): Origins
    decreases |steps|
  {
    if steps == [] then o else Gathered(Gather(o, steps[0]), steps[1..])
  }

  /** At boot only the record in the store is known. */
  function AtBoot(boot: World): Origins {
    Origins({}, if boot.protocol.store.Some? then {boot.protocol.store.value} else {})
  }

  // ------------------------------------------------------------------------- the invariant

  /** Every job carries a recent record, and the store holds a known one. */
  ghost predicate Sourced(h: P.History, e: P.Enqueuer, store: Option<P.Record>, o: Origins) {
    && (forall g :: g in h.jobs ==> h.jobs[g].record in o.recent)
    && (!e.Unlocked? ==> e.job.record in o.recent)
    && (store.Some? ==> store.value in o.known)
    && o.recent <= o.known
  }

  ghost predicate Traced(w: World, o: Origins) {
    Sourced(w.protocol.history, w.protocol.enqueuer, w.protocol.store, o)
  }

  lemma CallerKeepsSourced(p: P.State, c: P.CallerStep, o: Origins)
    requires P.CallerEnabled(p, c) && Sourced(p.history, p.enqueuer, p.store, o)
    ensures
      var q := P.CallerApply(p, c);
      Sourced(q.history, q.enqueuer, q.store, Gather(o, Background(P.Caller(c))))
  {
    T.CallerFrame(p, c);
  }

  lemma WorkerKeepsSourced(p: P.State, ok: bool, o: Origins)
    requires I.Inv(p) && Sourced(p.history, p.enqueuer, p.store, o)
    ensures var q := P.WorkerApply(p, ok); Sourced(q.history, q.enqueuer, q.store, o)
  {
    T.WorkerFrame(p, ok);
    if p.worker.Saving? {
      assert I.Known(p.history, p.worker.job);
    }
  }

  /** The executor's own protocol actions touch neither the mailbox's side nor the store. */
  predicate OnlyExecutor(p: P.State, q: P.State) {
    q.history == p.history && q.enqueuer == p.enqueuer && q.store == p.store
  }

  lemma ExecutorOnly(p: P.State, x: P.ExecutorStep)
    ensures OnlyExecutor(p, P.ExecutorApply(p, x))
  {
    T.ExecutorFrame(p, x);
  }

  lemma OwnStep(w: World, a: Step)
    requires InStep(w.pc, w.protocol.executor) && Enabled(w, a) && !a.Background? && !a.Restart?
    ensures OnlyExecutor(w.protocol, Apply(w, a).protocol)
  {
    var p := w.protocol;
    ExecutorOnly(p, P.Drop);
    match a
    case Wait => ExecutorOnly(p, P.Advance);
    case Start(op) => ExecutorOnly(p, P.Begin);
    case Proceed(answer) => ProceedMovesProtocol(w, answer);
    case _ =>
  }

  lemma StepKeepsTraced(w: World, a: Step, o: Origins)
    requires I.Inv(w.protocol) && InStep(w.pc, w.protocol.executor) && Traced(w, o) && Enabled(w, a)
    ensures Traced(Apply(w, a), Gather(o, a))
  {
    if a.Background? {
      match a.step
      case Caller(c) => CallerKeepsSourced(w.protocol, c, o);
      case Work(ok) => WorkerKeepsSourced(w.protocol, ok, o);
    } else if !a.Restart? {
      OwnStep(w, a);
    }
  }

  lemma {:induction false} RunKeepsTraced(w: World, steps: seq<Step>, v: World, o: Origins)
    requires Inv(w) && Traced(w, o) && Runs(w, steps, v)
    ensures Inv(v) && Traced(v, Gathered(o, steps))
    decreases |steps|
  {
    if steps != [] {
      var u := FirstOfRun(w, steps, v);
      StepKeepsInv(w, steps[0]);
      StepKeepsTraced(w, steps[0], o);
      RunKeepsTraced(u, steps[1..], v, Gather(o, steps[0]));
    }
  }

  lemma RunTraced(boot: World, steps: seq<Step>, w: World)
    requires Booted(boot) && Runs(boot, steps, w)
    ensures Inv(w) && Traced(w, Gathered(AtBoot(boot), steps))
  {
    BootInv(boot);
    RunKeepsTraced(boot, steps, w, AtBoot(boot));
  }

  // ------------------------------------------------------------------------------ theorems

  /**
   Whenever the submit port is being called, the very record of that submission, Submitting and with its identity
   and draft, was handed to `enqueue` since the last restart: a recovered record is not enough.
   */
  lemma BroadcastWasEnqueued(boot: World, steps: seq<Step>, w: World)
    requires Booted(boot) && Runs(boot, steps, w) && w.pc.Broadcasting?
    ensures P.Record(w.pc.identity, P.Submitting, Some(w.pc.draft)) in Gathered(AtBoot(boot), steps).recent
  {
    RunTraced(boot, steps, w);
    HeldIsRecent(w, Gathered(AtBoot(boot), steps));
  }

  lemma HeldIsRecent(w: World, o: Origins)
    requires Inv(w) && Traced(w, o) && w.pc.Broadcasting?
    ensures P.Record(w.pc.identity, P.Submitting, Some(w.pc.draft)) in o.recent
  {
    var p := w.protocol;
    assert p.atomics.held != 0 && p.atomics.held in p.history.jobs;
    assert p.store == Some(p.history.jobs[p.atomics.held].record);
  }

  /** Some port showed this draft. */
  ghost predicate EverShown(log: seq<Event>, d: string) {
    exists k :: 0 <= k < |log| && Shows(log[k]) && log[k].answer.preview.draft == d
  }

  /** The draft an observation asks about was shown by a port, or is that of a known record of its identity. */
  ghost predicate AskedOfOwn(w: World, o: Origins) {
    w.pc.Observing? ==>
      EverShown(w.log, w.pc.draft)
      || exists r :: r in o.known && r.identity == w.pc.identity && r.draft == Some(w.pc.draft)
  }

  lemma ShownEver(w: World)
    requires Inv(w) && w.retained.preview.Some?
    ensures EverShown(w.log, w.retained.preview.value.draft)
  {
    assert w.log[..|w.log|] == w.log;
    var k := FindShown(w.log, |w.log|);
  }

  lemma EverShownGrows(log: seq<Event>, e: Event, d: string)
    requires EverShown(log, d)
    ensures EverShown(log + [e], d)
  {
    var k :| 0 <= k < |log| && Shows(log[k]) && log[k].answer.preview.draft == d;
    assert (log + [e])[k] == log[k];
  }

  /** What starts an observation. */
  lemma StartAsks(w: World, op: Operation, o: Origins)
    requires Inv(w) && w.pc.Idle?
    ensures AskedOfOwn(StartPc(w, op), o)
  {
    if op.Observe? && w.retained.preview.Some? {
      ShownEver(w);
      EverShownGrows(w.log, ObserveCalled(w.retained.preview.value.draft), w.retained.preview.value.draft);
    }
  }

  lemma LoadAsks(w: World, answer: Answer, o: Origins)
    requires Traced(w, o) && w.pc.LoadDraft?
    ensures AskedOfOwn(DraftLoaded(w, w.pc.identity, w.pc.finality, answer), o)
  {
  }

  /** Any other step of the operation in flight. */
  lemma ProceedAsks(w: World, answer: Answer)
    requires !w.pc.LoadDraft?
    ensures !ProceedApply(Heard(w, answer), answer).pc.Observing? || w.pc.Idle? || w.pc.Waiting? || w.pc.Dropping?
  {
  }

  /** Steps of other threads leave a running observation as it is. */
  lemma OthersAsk(w: World, a: Step, o: Origins)
    requires AskedOfOwn(w, o) && Enabled(w, a)
    requires a.Background? || a.Wait? || a.Abandon? || a.Select? || a.Stage? || a.Unstage? || a.Restart?
    ensures AskedOfOwn(Apply(w, a), Gather(o, a))
  {
    var v := Apply(w, a);
    if v.pc.Observing? && v.log != w.log && EverShown(w.log, w.pc.draft) {
      EverShownGrows(w.log, v.log[|w.log|], w.pc.draft);
    }
  }

  lemma StepAsks(w: World, a: Step, o: Origins)
    requires Inv(w) && Traced(w, o) && AskedOfOwn(w, o) && Enabled(w, a)
    ensures AskedOfOwn(Apply(w, a), Gather(o, a))
  {
    if a.Start? {
      StartAsks(w, a.operation, o);
    } else if a.Proceed? {
      if w.pc.LoadDraft? { LoadAsks(w, a.answer, o); } else { ProceedAsks(w, a.answer); }
    } else {
      OthersAsk(w, a, o);
    }
  }

  lemma {:induction false} RunAsks(w: World, steps: seq<Step>, v: World, o: Origins)
    requires Inv(w) && Traced(w, o) && AskedOfOwn(w, o) && Runs(w, steps, v)
    ensures AskedOfOwn(v, Gathered(o, steps))
    decreases |steps|
  {
    if steps != [] {
      var u := FirstOfRun(w, steps, v);
      StepKeepsInv(w, steps[0]);
      StepKeepsTraced(w, steps[0], o);
      StepAsks(w, steps[0], o);
      RunAsks(u, steps[1..], v, Gather(o, steps[0]));
    }
  }

  /**
   Whenever a status is being observed, its draft was shown by a port, or is that of a record of the very identity
   that was handed to `enqueue` or found in the store at boot.
   */
  lemma ObservedIsKnown(boot: World, steps: seq<Step>, w: World)
    requires Booted(boot) && Runs(boot, steps, w) && w.pc.Observing?
    ensures AskedOfOwn(w, Gathered(AtBoot(boot), steps))
  {
    BootInv(boot);
    RunAsks(boot, steps, w, AtBoot(boot));
  }

  /** An operation whose read of the store fails ends there: it calls no port and changes nothing. */
  lemma FailedReadStops(w: World, answer: Answer, v: World)
    requires (w.pc.LoadRecord? || w.pc.LoadDraft?) && !answer.Go?
    requires Enabled(w, Proceed(answer)) && v == Apply(w, Proceed(answer))
    ensures v.log == w.log && v.retained == w.retained && v.protocol.store == w.protocol.store
    ensures v.pc.Idle? || v.pc.Dropping?
  {
  }
}
