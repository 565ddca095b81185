/** What the recovery-persistence protocol guarantees in every interleaving. */
module RecoveryTheorems {
  import opened Common
  import opened RecoveryProtocol
  import opened RecoveryInvariant

  // ------------------------------------------------------- what a step may change

  lemma CallerFrame(s: State, c: CallerStep)
    requires CallerEnabled(s, c)
    ensures var t := CallerApply(s, c);
            && t.store == s.store && t.executor == s.executor && t.worker == s.worker
            && t.history.saved == s.history.saved && t.history.initial == s.history.initial
            && t.atomics.held == s.atomics.held && t.atomics.released == s.atomics.released
            && (!c.Place? ==> t.history == s.history)
  {
  }

  lemma WorkerFrame(s: State, ok: bool)
    ensures var t := WorkerApply(s, ok);
            && t.executor == s.executor && t.enqueuer == s.enqueuer && t.rejects == s.rejects
            && t.history.(saved := s.history.saved, skipped := s.history.skipped, failed := s.history.failed)
               == s.history
            && (!s.worker.Saving? ==> t.store == s.store && t.history.saved == s.history.saved)
            && (!s.worker.SetDurable? ==> t.atomics.durable == s.atomics.durable)
            && t.atomics.required == s.atomics.required && t.atomics.released == s.atomics.released
  {
  }

  lemma ExecutorFrame(s: State, x: ExecutorStep)
    ensures var t := ExecutorApply(s, x);
            && t.store == s.store && t.history == s.history && t.worker == s.worker
            && t.enqueuer == s.enqueuer && t.rejects == s.rejects
            && t.atomics.(held := s.atomics.held, released := s.atomics.released) == s.atomics
            && (!InRelease(s.executor) || x != Advance ==> t.atomics == s.atomics)
  {
  }

  // ------------------------------------------------------------- reachability

  lemma StepKeepsInv(s: State, a: Step)
    requires Inv(s) && Enabled(s, a)
    ensures Inv(Apply(s, a))
  {
    match a
    case Caller(c) => CallerKeepsInv(s, c);
    case Work(ok) => WorkerKeepsInv(s, ok);
    case Execute(x) => ExecutorKeepsInv(s, x);
  }

  lemma {:induction false} RunKeepsInv(s: State, steps: seq<Step>, t: State)
    requires Inv(s) && Runs(s, steps, t)
    ensures Inv(t)
    decreases |steps|
  {
    if steps != [] {
      StepKeepsInv(s, steps[0]);
      RunKeepsInv(Apply(s, steps[0]), steps[1..], t);
    }
  }

  /** The invariant holds in every reachable state of every interleaving. */
  lemma ReachableInv(s: State)
    requires Reachable(s)
    ensures Inv(s)
  {
    var store, durable, steps :| Runs(Start(store, durable), steps, s);
    StartInv(store, durable);
    RunKeepsInv(Start(store, durable), steps, s);
  }

  lemma {:induction false} RunsJoin(s: State, a: seq<Step>, t: State, b: seq<Step>, u: State)
    requires Runs(s, a, t) && Runs(t, b, u)
    ensures Runs(s, a + b, u)
    decreases |a|
  {
    if a == [] {
      assert a + b == b;
    } else {
      RunsJoin(Apply(s, a[0]), a[1..], t, b, u);
      assert (a + b)[1..] == a[1..] + b;
    }
  }

  // -------------------------------------------------- a held checkpoint is frozen

  /** A held generation is the stored generation, and it is a Submitting record. */
  lemma HeldIsStored(s: State)
    requires Reachable(s) && s.atomics.held != 0
    ensures s.atomics.held in s.history.jobs && s.store == Some(s.history.jobs[s.atomics.held].record)
    ensures s.store.value.state == Submitting
    ensures s.atomics.held == StoreGeneration(s.history) == s.atomics.persisted
  {
    ReachableInv(s);
  }

  /** While a checkpoint is held no step of any thread writes the store. */
  lemma HoldFreezesStore(s: State, a: Step)
    requires Inv(s) && Enabled(s, a) && s.atomics.held != 0
    ensures Apply(s, a).store == s.store && Apply(s, a).history.saved == s.history.saved
    ensures s.executor.Guarded? && a != Execute(Drop) ==> Apply(s, a).executor == s.executor
  {
    match a
    case Caller(c) => CallerFrame(s, c);
    case Work(ok) => WorkerFrame(s, ok);
    case Execute(x) => ExecutorFrame(s, x);
  }

  predicate KeepsGuard(steps: seq<Step>) {
    forall i :: 0 <= i < |steps| ==> steps[i] != Execute(Drop)
  }

  /** Until its guard is dropped, the claimed checkpoint stays the stored record in every continuation. */
  lemma {:induction false} GuardFreezesStore(s: State, steps: seq<Step>, t: State, g: int)
    requires Inv(s) && Runs(s, steps, t) && s.executor == Guarded(g) && KeepsGuard(steps)
    ensures Inv(t) && t.executor == Guarded(g) && t.atomics.held == g
    ensures t.store == s.store && t.history.saved == s.history.saved
    decreases |steps|
  {
    if steps != [] {
      var u := Apply(s, steps[0]);
      HoldFreezesStore(s, steps[0]);
      StepKeepsInv(s, steps[0]);
      GuardFreezesStore(u, steps[1..], t, g);
    }
  }

  // ------------------------------------------------------------- wake-ups

  /**
   No lost wake-up: a worker blocked on an empty channel, with nobody about to send,
   has nothing it may do: a checkpoint is held or both slots are empty.
   */
  lemma NoLostWakeUp(s: State)
    requires Reachable(s)
    requires s.worker.Receiving? && !s.channel.token && s.channel.owed == 0 && !s.executor.ReleaseSend?
    ensures s.atomics.held != 0 || (s.pending.latest.None? && s.pending.submission.None?)
  {
    ReachableInv(s);
  }

  /** What lets `await_submission` return. */
  predicate Answerable(a: Atomics, target: int) {
    (a.durable && a.held >= target) || a.failedSubmission >= target
  }

  /**
   No lost notification: a parked waiter whose answer is available has been notified
   since it subscribed, or some thread is still on its way to notify it.
   */
  lemma NoLostNotification(s: State)
    requires Reachable(s) && s.executor.Parked? && Answerable(s.atomics, s.executor.target)
    ensures s.atomics.notifications > s.executor.seen
         || s.worker.NotifyHeld? || s.worker.Notify? || (s.worker.SetDurable? && !s.worker.durable)
         || exists r :: r in s.rejects && r.stage == NotifyRejected
  {
    ReachableInv(s);
  }

  // --------------------------------------------- the mailbox refines a write-through store

  /** The simple form: every record is written the moment it is placed. */
  function WriteThrough(store: Option<Record>, records: seq<Record>): Option<Record>
    decreases |records|
  {
    if records == [] then store else WriteThrough(Some(records[0]), records[1..])
  }

  /** The record handed to the `enqueue` call that holds the mailbox lock after step `a`. */
  function Handed(handed: Option<Record>, a: Step): Option<Record> {
    match a
    case Caller(Lock(record)) => Some(record)
    case Caller(Place) => None
    case _ => handed
  }

  /** The records handed to `enqueue` calls that placed them, in order, read off the steps alone. */
  function Enqueued(handed: Option<Record>, steps: seq<Step>): seq<Record>
    decreases |steps|
  {
    if steps == [] then []
    else
      var rest := Enqueued(Handed(handed, steps[0]), steps[1..]);
      if steps[0] == Caller(Place) && handed.Some? then [handed.value] + rest else rest
  }

  /** The lock holder's job carries the record that was handed to its call. */
  predicate Carries(e: Enqueuer, handed: Option<Record>) {
    !e.Unlocked? ==> handed == Some(e.job.record)
  }

  lemma StepCarries(s: State, handed: Option<Record>, a: Step)
    requires Enabled(s, a) && Carries(s.enqueuer, handed)
    ensures Carries(Apply(s, a).enqueuer, Handed(handed, a))
    ensures a == Caller(Place) ==> handed == Some(s.enqueuer.job.record)
  {
    match a
    case Caller(c) =>
    case Work(ok) => WorkerFrame(s, ok);
    case Execute(x) => ExecutorFrame(s, x);
  }

  /** The newest record placed. */
  function Mirror(h: History): Option<Record>
    requires Top(h) != 0 ==> Top(h) in h.jobs
  {
    if Top(h) == 0 then h.initial else Some(h.jobs[Top(h)].record)
  }

  lemma StepMirrors(s: State, a: Step)
    requires InvData(s) && Enabled(s, a) && InvData(Apply(s, a))
    ensures Mirror(Apply(s, a).history) ==
            if a == Caller(Place) then Some(s.enqueuer.job.record) else Mirror(s.history)
  {
    match a
    case Caller(c) => CallerFrame(s, c);
    case Work(ok) => WorkerFrame(s, ok);
    case Execute(x) => ExecutorFrame(s, x);
  }

  lemma {:induction false} RunMirrors(s: State, handed: Option<Record>, steps: seq<Step>, t: State)
    requires Inv(s) && Carries(s.enqueuer, handed) && Runs(s, steps, t)
    ensures Inv(t) && Mirror(t.history) == WriteThrough(Mirror(s.history), Enqueued(handed, steps))
    decreases |steps|
  {
    if steps != [] {
      var a := steps[0];
      StepKeepsInv(s, a);
      StepMirrors(s, a);
      StepCarries(s, handed, a);
      var u := Apply(s, a);
      RunMirrors(u, Handed(handed, a), steps[1..], t);
      var rest := Enqueued(Handed(handed, a), steps[1..]);
      if a == Caller(Place) {
        assert ([s.enqueuer.job.record] + rest)[1..] == rest;
      }
    }
  }

  /** Both slots are empty and the worker has no job whose fate is open. */
  predicate Quiescent(s: State) {
    s.pending.latest.None? && s.pending.submission.None? && InHand(s.worker).None?
  }

  /** At quiescence the newest record is the stored one exactly when its save did not fail. */
  lemma QuiescentStoresNewest(s: State)
    requires Inv(s) && Quiescent(s) && Top(s.history) != 0
    ensures StoreGeneration(s.history) == Top(s.history) <==> Top(s.history) !in s.history.failed
  {
    var h := s.history;
    assert Open(s.pending, InHand(s.worker), Top(h)) || Decided(h, Top(h));
    assert StoreGeneration(h) <= Top(h);
  }

  /**
   Refinement: when a run is quiescent, the store is what writing every enqueued record
   in order would have left, unless the newest save failed.
   */
  lemma MailboxRefinesWriteThrough(store: Option<Record>, durable: bool, steps: seq<Step>, t: State)
    requires Runs(Start(store, durable), steps, t) && Quiescent(t)
    requires Top(t.history) !in t.history.failed
    ensures t.store == WriteThrough(store, Enqueued(None, steps))
  {
    StartInv(store, durable);
    RunMirrors(Start(store, durable), None, steps, t);
    if Top(t.history) != 0 {
      QuiescentStoresNewest(t);
    }
  }

  /** The store accepts every save it is asked for. */
  predicate Accepting(steps: seq<Step>) {
    forall i :: 0 <= i < |steps| ==> steps[i] != Work(false)
  }

  lemma {:induction false} AcceptingNeverFails(s: State, steps: seq<Step>, t: State)
    requires Runs(s, steps, t) && Accepting(steps)
    ensures t.history.failed == s.history.failed
    decreases |steps|
  {
    if steps != [] {
      AcceptingNeverFails(Apply(s, steps[0]), steps[1..], t);
    }
  }

  /** With a store that accepts every save, nothing but the steps decides what is stored in the end. */
  lemma AcceptingRefinesWriteThrough(store: Option<Record>, durable: bool, steps: seq<Step>, t: State)
    requires Runs(Start(store, durable), steps, t) && Quiescent(t) && Accepting(steps)
    ensures t.store == WriteThrough(store, Enqueued(None, steps))
  {
    AcceptingNeverFails(Start(store, durable), steps, t);
    MailboxRefinesWriteThrough(store, durable, steps, t);
  }

  // ------------------------------------------------------- fates of the records

  /** The stale-skip branch never swallows a submission checkpoint. */
  lemma SubmissionIsNeverStale(s: State)
    requires Reachable(s)
    ensures s.worker.Compare? && s.worker.job.barrier ==> s.atomics.persisted < s.worker.job.generation
    ensures s.pending.submission.Some? ==> s.atomics.persisted < s.pending.submission.value.generation
  {
    ReachableInv(s);
  }

  /**
   Every submission checkpoint ever placed is still on its way, was saved, failed to
   save, or was replaced by a newer submission.  A saved one is the stored record
   until the executor has released it: nothing overwrites an unreleased checkpoint.
   */
  lemma SubmissionFate(s: State, g: int)
    requires Reachable(s) && g in s.history.jobs && s.history.jobs[g].barrier
    ensures || s.pending.submission == Some(s.history.jobs[g])
            || InHand(s.worker) == Some(s.history.jobs[g])
            || g in s.history.saved
            || g in s.history.failed
            || exists h :: h in s.history.jobs && s.history.jobs[h].barrier && g < h
    ensures g in s.history.saved ==>
              || s.atomics.released >= g
              || (s.store == Some(s.history.jobs[g].record) && (BeforeHold(s.worker) || s.atomics.held == g))
  {
    ReachableInv(s);
    assert Open(s.pending, InHand(s.worker), g) || Decided(s.history, g);
    if g in s.history.replaced {
      assert g < s.history.topSubmission;
    }
  }

  /** The generations saved are strictly increasing over the whole run. */
  lemma SavesIncrease(s: State, i: int, j: int)
    requires Reachable(s) && 0 <= i < j < |s.history.saved|
    ensures 0 < s.history.saved[i] < s.history.saved[j] <= Top(s.history)
  {
    ReachableInv(s);
    assert s.history.saved[i] in s.history.jobs && s.history.saved[j] in s.history.jobs;
  }

  lemma StepStoresForward(s: State, a: Step)
    requires Inv(s) && Enabled(s, a)
    ensures StoreGeneration(s.history) <= StoreGeneration(Apply(s, a).history)
  {
    match a
    case Caller(c) => CallerFrame(s, c);
    case Work(ok) => WorkerFrame(s, ok);
    case Execute(x) => ExecutorFrame(s, x);
  }

  lemma {:induction false} RunStoresForward(s: State, steps: seq<Step>, t: State)
    requires Inv(s) && Runs(s, steps, t)
    ensures Inv(t) && StoreGeneration(s.history) <= StoreGeneration(t.history)
    decreases |steps|
  {
    if steps != [] {
      StepStoresForward(s, steps[0]);
      StepKeepsInv(s, steps[0]);
      RunStoresForward(Apply(s, steps[0]), steps[1..], t);
    }
  }

  /**
   `await_latest` called in `s` and answering true in `t`: from then on, in every
   continuation, the stored record is at least as new as the latest one at the call.
   */
  lemma AwaitLatestIsDurable(s: State, wait: seq<Step>, t: State, later: seq<Step>, u: State)
    requires Reachable(s) && Runs(s, wait, t) && Runs(t, later, u)
    requires s.atomics.latest == 0 || t.atomics.persistedLatest >= s.atomics.latest
    ensures StoreGeneration(u.history) >= s.atomics.latest
    ensures t.atomics.persisted >= s.atomics.latest
  {
    ReachableInv(s);
    RunKeepsInv(s, wait, t);
    RunStoresForward(t, later, u);
  }

  /** A claim hands out a checkpoint at least as new as the one required, and it is stored. */
  lemma ClaimIsDurable(s: State)
    requires Reachable(s) && s.executor.SawHeld? && ExecutorApply(s, Advance).executor.Guarded?
    ensures var g := ExecutorApply(s, Advance).executor.generation;
            && g >= s.executor.target && g == s.atomics.held == StoreGeneration(s.history)
            && s.store.Some? && s.store.value.state == Submitting
  {
    ReachableInv(s);
  }
}
