/**
 A held checkpoint is released only by the guard of an operation that claimed it.
 An operation that fails before it reaches `await_submission`, or is dropped inside
 it, leaves the hold behind.  This module proves, for every reachable state, exactly
 when a hold can still be released, and that otherwise the worker never saves again.
 */
module RecoveryWedge {
  import opened Common
  import opened RecoveryProtocol
  import opened RecoveryInvariant
  import opened RecoveryTheorems
  import opened RecoveryRuns

  /** An operation that starts now, or once a reject call has stored its generation, would claim `g`. */
  ghost predicate Claimable(a: Atomics, rejects: set<Reject>, g: int) {
    a.required <= g || exists r :: r in rejects && r.stage == StoreRequired && r.generation <= g
  }

  /** The operation in flight can itself still claim `g`, or release it. */
  predicate CanClaim(a: Atomics, x: Executor, g: int) {
    match x
    case Polling(t) => t <= g
    case Subscribed(t, _) => t <= g
    case SawHeld(t, _, h) => t <= g && (t <= h || a.failedSubmission < t)
    case CheckFailed(t, _) => t <= g && a.failedSubmission < t
    case Parked(t, _) => t <= g
    case _ => false
  }

  predicate CanRelease(x: Executor, g: int) {
    match x
    case Guarded(_) => true
    case Releasing(_) => true
    case ReleaseLoad(r) => g <= r
    case ReleaseSwap(r, o) => g == o || g <= r
    case _ => false
  }

  ghost predicate Wedged(s: State, g: int) {
    && g != 0 && s.atomics.held == g
    && !CanRelease(s.executor, g)
    && (s.atomics.durable ==> !Claimable(s.atomics, s.rejects, g) && !CanClaim(s.atomics, s.executor, g))
  }

  lemma CallerKeepsWedge(s: State, c: CallerStep, g: int)
    requires Inv(s) && CallerEnabled(s, c) && Wedged(s, g)
    ensures Wedged(CallerApply(s, c), g)
  {
    CallerFrame(s, c);
    assert g in s.history.jobs && g <= s.atomics.next;
  }

  lemma WorkerKeepsWedge(s: State, ok: bool, g: int)
    requires Inv(s) && WorkerEnabled(s) && Wedged(s, g)
    ensures Wedged(WorkerApply(s, ok), g)
  {
    WorkerFrame(s, ok);
  }

  lemma ExecutorKeepsWedge(s: State, x: ExecutorStep, g: int)
    requires Inv(s) && ExecutorEnabled(s, x) && Wedged(s, g)
    ensures Wedged(ExecutorApply(s, x), g)
  {
    ExecutorFrame(s, x);
  }

  /** Once wedged, always wedged: the store never changes again, whatever the threads do. */
  lemma {:induction false} WedgeIsForever(s: State, steps: seq<Step>, t: State, g: int)
    requires Inv(s) && Runs(s, steps, t) && Wedged(s, g)
    ensures Inv(t) && Wedged(t, g) && t.store == s.store && t.history.saved == s.history.saved
    decreases |steps|
  {
    if steps != [] {
      var a := steps[0];
      StepKeepsInv(s, a);
      HoldFreezesStore(s, a);
      match a {
        case Caller(c) => CallerKeepsWedge(s, c, g);
        case Work(ok) => WorkerKeepsWedge(s, ok, g);
        case Execute(x) => ExecutorKeepsWedge(s, x, g);
      }
      WedgeIsForever(Apply(s, a), steps[1..], t, g);
    }
  }

  // ----------------------------------------------------------- when a release is possible

  ghost predicate Reaches(s: State, t: State) {
    exists steps :: Runs(s, steps, t)
  }

  lemma ReachesOn(s: State, t: State, a: Step)
    requires Reaches(s, t) && Enabled(t, a)
    ensures Reaches(s, Apply(t, a))
  {
    var steps :| Runs(s, steps, t);
    assert [a][1..] == [] && Runs(Apply(t, a), [], Apply(t, a));
    assert Runs(t, [a], Apply(t, a));
    RunsJoin(s, steps, t, [a], Apply(t, a));
  }

  lemma ReachesSelf(s: State)
    ensures Reaches(s, s)
  {
    assert Runs(s, [], s);
  }

  lemma ReachesJoin(s: State, t: State, u: State)
    requires Reaches(s, t) && Reaches(t, u)
    ensures Reaches(s, u)
  {
    var a :| Runs(s, a, t);
    var b :| Runs(t, b, u);
    RunsJoin(s, a, t, b, u);
  }

  /** The hold is released in some continuation. */
  ghost predicate Releasable(s: State) {
    exists t :: Reaches(s, t) && t.atomics.held == 0
  }

  lemma ReleasableBefore(s: State, t: State)
    requires Reaches(s, t) && Releasable(t)
    ensures Releasable(s)
  {
    var u :| Reaches(t, u) && u.atomics.held == 0;
    ReachesJoin(s, t, u);
  }

  lemma ReleasableAfter(s: State, a: Step)
    requires Enabled(s, a) && Releasable(Apply(s, a))
    ensures Releasable(s)
  {
    ReachesSelf(s);
    ReachesOn(s, s, a);
    ReleasableBefore(s, Apply(s, a));
  }

  /** How far the executor is from releasing `g`. */
  function ToRelease(x: Executor, g: int): nat {
    match x
    case Guarded(_) => 5
    case Releasing(_) => 4
    case ReleaseLoad(_) => 2
    case ReleaseSwap(_, o) => if o == g then 1 else 3
    case _ => 0
  }

  function ReleaseAction(x: Executor): Step {
    Execute(if x.Guarded? then Drop else Advance)
  }

  lemma ReleaseStep(s: State, t: State)
    requires s.atomics.held != 0 && CanRelease(s.executor, s.atomics.held) && InvExecutor(s.atomics, s.executor)
    requires Enabled(s, ReleaseAction(s.executor)) && t == Apply(s, ReleaseAction(s.executor))
    ensures || t.atomics.held == 0
            || (&& t.atomics.held == s.atomics.held && CanRelease(t.executor, s.atomics.held)
                && ToRelease(t.executor, s.atomics.held) < ToRelease(s.executor, s.atomics.held))
  {
  }

  lemma {:induction false} ReleaseFinishes(s: State)
    requires Inv(s) && s.atomics.held != 0 && CanRelease(s.executor, s.atomics.held)
    ensures Releasable(s)
    decreases ToRelease(s.executor, s.atomics.held)
  {
    var a := ReleaseAction(s.executor);
    var t := Apply(s, a);
    StepKeepsInv(s, a);
    ReleaseStep(s, t);
    if t.atomics.held == 0 {
      ReachesSelf(t);
    } else {
      ReleaseFinishes(t);
    }
    ReleasableAfter(s, a);
  }

  /** How far a waiting executor is from looking at the held generation. */
  function ToLook(x: Executor): nat {
    match x
    case CheckFailed(_, _) => 6
    case Parked(_, _) => 5
    case LoadTarget => 4
    case Polling(_) => 3
    case Subscribed(_, _) => 2
    case SawHeld(_, _, h) => if h == 0 then 7 else 1
    case _ => 0
  }

  /** A parked waiter that could claim the hold can be notified without anything else changing. */
  lemma Notified(s: State) returns (a: Step)
    requires Inv(s) && s.executor.Parked? && s.atomics.held != 0 && s.atomics.durable
    requires CanClaim(s.atomics, s.executor, s.atomics.held) && s.atomics.notifications <= s.executor.seen
    ensures Enabled(s, a) && !a.Execute?
    ensures
      var t := Apply(s, a);
      && t.executor == s.executor && t.atomics == s.atomics.(notifications := s.atomics.notifications + 1)
  {
    assert Signalled(s.atomics, s.worker, s.rejects, s.executor.seen);
    if s.worker.NotifyHeld? {
      a := Work(true);
    } else {
      var r :| r in s.rejects && r.stage == NotifyRejected;
      a := Caller(RejectNext(r));
    }
  }

  /** A waiter that has not to be notified first takes one action nearer to the hold. */
  lemma LookStep(s: State, t: State)
    requires s.atomics.held != 0 && s.atomics.durable && CanClaim(s.atomics, s.executor, s.atomics.held)
    requires InvExecutor(s.atomics, s.executor)
    requires Enabled(s, Execute(Advance)) && t == Apply(s, Execute(Advance))
    ensures t.atomics == s.atomics
    ensures t.executor.Guarded? ||
            (CanClaim(t.atomics, t.executor, t.atomics.held) && ToLook(t.executor) < ToLook(s.executor))
  {
  }

  lemma {:induction false} ClaimFinishes(s: State)
    requires Inv(s) && s.atomics.held != 0 && s.atomics.durable && CanClaim(s.atomics, s.executor, s.atomics.held)
    ensures Releasable(s)
    decreases ToLook(s.executor), s.executor.Parked? && s.atomics.notifications <= s.executor.seen
  {
    var a := Execute(Advance);
    var waits := s.executor.Parked? && s.atomics.notifications <= s.executor.seen;
    if waits {
      a := Notified(s);
    }
    var t := Apply(s, a);
    StepKeepsInv(s, a);
    if !waits {
      LookStep(s, t);
    }
    if t.executor.Guarded? {
      ReleaseFinishes(t);
    } else {
      ClaimFinishes(t);
    }
    ReleasableAfter(s, a);
  }

  /** A new operation claims the hold. */
  lemma {:induction false} LoadIsReleased(s: State)
    requires Inv(s) && s.atomics.held != 0 && s.atomics.durable && s.atomics.required <= s.atomics.held
    requires s.executor.LoadTarget?
    ensures Releasable(s)
  {
    var a := Execute(Advance);
    assert s.atomics.required >= 1;
    StepKeepsInv(s, a);
    ClaimFinishes(Apply(s, a));
    ReleasableAfter(s, a);
  }

  lemma {:induction false} IdleIsReleased(s: State)
    requires Inv(s) && s.atomics.held != 0 && s.atomics.durable && s.atomics.required <= s.atomics.held
    requires s.executor.Idle?
    ensures Releasable(s)
  {
    StepKeepsInv(s, Execute(Begin));
    LoadIsReleased(Apply(s, Execute(Begin)));
    ReleasableAfter(s, Execute(Begin));
  }

  /** How far an operation that will not claim is from being out of the way. */
  function ToIdle(x: Executor): nat {
    match x
    case Parked(_, _) => 1
    case CheckFailed(_, _) => 2
    case SawHeld(_, _, _) => 3
    case Subscribed(_, _) => 4
    case Polling(_) => 5
    case ReleaseSend => 6
    case ReleaseLoad(_) => 7
    case ReleaseSwap(_, _) => 8
    case _ => 0
  }

  function YieldAction(x: Executor): Step {
    Execute(if x.Parked? then Drop else Advance)
  }

  lemma YieldStep(s: State, t: State)
    requires s.atomics.held != 0 && s.atomics.durable && !s.executor.Idle? && !s.executor.LoadTarget?
    requires !CanClaim(s.atomics, s.executor, s.atomics.held) && !CanRelease(s.executor, s.atomics.held)
    requires Enabled(s, YieldAction(s.executor)) && t == Apply(s, YieldAction(s.executor))
    ensures t.atomics == s.atomics && ToIdle(t.executor) < ToIdle(s.executor)
  {
  }

  lemma {:induction false} ClaimableIsReleased(s: State)
    requires Inv(s) && s.atomics.held != 0 && s.atomics.durable && s.atomics.required <= s.atomics.held
    ensures Releasable(s)
    decreases ToIdle(s.executor)
  {
    if CanRelease(s.executor, s.atomics.held) {
      ReleaseFinishes(s);
    } else if CanClaim(s.atomics, s.executor, s.atomics.held) {
      ClaimFinishes(s);
    } else if s.executor.Idle? {
      IdleIsReleased(s);
    } else if s.executor.LoadTarget? {
      LoadIsReleased(s);
    } else {
      var a := YieldAction(s.executor);
      StepKeepsInv(s, a);
      YieldStep(s, Apply(s, a));
      ClaimableIsReleased(Apply(s, a));
      ReleasableAfter(s, a);
    }
  }

  lemma RejectThenRelease(s: State, r: Reject)
    requires Inv(s) && s.atomics.held != 0 && s.atomics.durable
    requires r in s.rejects && r.stage == StoreRequired && r.generation <= s.atomics.held
    ensures Releasable(s)
  {
    var a := Caller(RejectNext(r));
    StepKeepsInv(s, a);
    ClaimableIsReleased(Apply(s, a));
    ReleasableAfter(s, a);
  }

  /**
   Exactly when a hold can still be released, wherever the executor is: a release is under way, or `durable` is set
   and the operation in flight, or one that starts now or after a pending reject, is content with that generation.
   */
  lemma {:induction false} ReleasableIff(s: State)
    requires Reachable(s) && s.atomics.held != 0
    ensures Releasable(s) <==>
            || CanRelease(s.executor, s.atomics.held)
            || (s.atomics.durable && (Claimable(s.atomics, s.rejects, s.atomics.held)
                                      || CanClaim(s.atomics, s.executor, s.atomics.held)))
  {
    ReachableInv(s);
    var g := s.atomics.held;
    if CanRelease(s.executor, g) {
      ReleaseFinishes(s);
    } else if !s.atomics.durable || (!Claimable(s.atomics, s.rejects, g) && !CanClaim(s.atomics, s.executor, g)) {
      forall t | Reaches(s, t) ensures t.atomics.held != 0 {
        var steps :| Runs(s, steps, t);
        WedgeIsForever(s, steps, t, g);
      }
    } else if CanClaim(s.atomics, s.executor, g) {
      ClaimFinishes(s);
    } else if s.atomics.required <= g {
      ClaimableIsReleased(s);
    } else {
      var r :| r in s.rejects && r.stage == StoreRequired && r.generation <= g;
      RejectThenRelease(s, r);
    }
  }

  // --------------------------------------------------------------- the wedge is reachable

  /** From every state with a fresh hold a reject call makes the hold unclaimable. */
  lemma RejectedRun(s: State, record: Record) returns (t: State)
    requires Holding(s, record) && s.rejects == {}
    ensures Leads(s, t) && t.executor.Idle? && Wedged(t, s.atomics.held) && t.store == s.store
  {
    var a, g := s.atomics, s.atomics.next + 1;
    LeadsNowhere(s);
    LeadsOn(s, s, Caller(RejectAllocate));
    var s1 := s.(atomics := a.(next := g), rejects := {Reject(StoreRequired, g)});
    assert s1 == Apply(s, Caller(RejectAllocate));
    LeadsOn(s, s1, Caller(RejectNext(Reject(StoreRequired, g))));
    var s2 := s.(atomics := a.(next := g, required := g), rejects := {Reject(ClearDurable, g)});
    assert s1.rejects - {Reject(StoreRequired, g)} + {Reject(ClearDurable, g)} == s2.rejects;
    LeadsOn(s, s2, Caller(RejectNext(Reject(ClearDurable, g))));
    t := s.(atomics := a.(next := g, required := g, durable := false), rejects := {Reject(StoreFailed, g)});
    assert s2.rejects - {Reject(ClearDurable, g)} + {Reject(StoreFailed, g)} == t.rejects;
  }

  /** From every state with a fresh hold, enqueueing another Submitting record makes the hold unclaimable. */
  lemma RetriedRun(s: State, record: Record, again: Record) returns (t: State)
    requires Holding(s, record) && s.rejects == {} && again.state == Submitting
    ensures t.enqueuer == Cleared(Job(t.atomics.next, true, again))
    ensures Leads(s, t) && t.executor.Idle? && Wedged(t, s.atomics.held) && t.store == s.store
  {
    var a, job := s.atomics.(next := s.atomics.next + 1), NewJob(s, again);
    LeadsNowhere(s);
    LeadsOn(s, s, Caller(Lock(again)));
    var s1 := s.(atomics := a, enqueuer := Allocated(job));
    LeadsOn(s, s1, Caller(Announce));
    var s2 := s.(atomics := a.(required := job.generation), enqueuer := Announced(job));
    LeadsOn(s, s2, Caller(Clear));
    t := s.(atomics := a.(required := job.generation, durable := false), enqueuer := Cleared(job));
  }

  lemma HoldIsReachable(record: Record) returns (s: State)
    requires record.state == Submitting
    ensures Leads(Start(None, true), s) && Holding(s, record) && s.rejects == {}
  {
    s := HeldRun(Start(None, true), record);
  }

  lemma LeadsReachable(s: State)
    requires Leads(Start(None, true), s)
    ensures Reachable(s)
  {
    var steps :| Background(steps) && Runs(Start(None, true), steps, s);
  }

  /**
   The wedge happens: an operation fails before it waits for its checkpoint, is retried, and the retry enqueues its
   Submitting record.  From then on no record is ever saved again, neither this one nor any other.
   */
  lemma RetryWedgeIsReachable(record: Record, again: Record) returns (s: State)
    requires record.state == Submitting && again.state == Submitting
    ensures Reachable(s) && s.executor.Idle? && s.atomics.held != 0 && Wedged(s, s.atomics.held)
    ensures s.store == Some(record) && s.enqueuer == Cleared(Job(s.atomics.next, true, again))
  {
    var held := HoldIsReachable(record);
    s := RetriedRun(held, record, again);
    LeadsJoin(Start(None, true), held, s);
    LeadsReachable(s);
  }

  /**
   So does a reject call, made when a projection cannot be turned into a record, that comes before the checkpoint is
   claimed.
   */
  lemma RejectWedgeIsReachable(record: Record) returns (s: State)
    requires record.state == Submitting
    ensures Reachable(s) && s.executor.Idle? && s.atomics.held != 0 && Wedged(s, s.atomics.held)
    ensures s.store == Some(record)
  {
    var held := HoldIsReachable(record);
    s := RejectedRun(held, record);
    LeadsJoin(Start(None, true), held, s);
    LeadsReachable(s);
  }
}
