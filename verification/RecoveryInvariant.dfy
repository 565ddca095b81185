/** The inductive invariant of the recovery-persistence protocol. */
module RecoveryInvariant {
  import opened Common
  import opened RecoveryProtocol

  /** The job the worker has taken but whose fate is still open. */
  function InHand(w: Worker): Option<Job> {
    if w.Compare? || w.Saving? then Some(w.job) else None
  }

  ghost predicate Known(h: History, job: Job) {
    job.generation in h.jobs && h.jobs[job.generation] == job
  }

  /** `g` was saved, failed, replaced by a newer record of its kind, or skipped as stale. */
  ghost predicate Decided(h: History, g: int) {
    g in h.saved || g in h.failed || g in h.replaced || g in h.skipped
  }

  ghost predicate Open(p: Pending, hand: Option<Job>, g: int) {
    || (p.latest.Some? && p.latest.value.generation == g)
    || (p.submission.Some? && p.submission.value.generation == g)
    || (hand.Some? && hand.value.generation == g)
  }

  ghost predicate Lawful(job: Job) {
    job.generation >= 1 && job.barrier == (job.record.state == Submitting)
  }

  ghost predicate InvJobs(h: History) {
    && (forall g :: g in h.jobs ==>
          h.jobs[g].generation == g && Lawful(h.jobs[g]) && g <= Newest(h, h.jobs[g].barrier))
    && h.topLatest >= 0 && h.topSubmission >= 0
    && (h.topLatest != 0 ==> h.topLatest in h.jobs && !h.jobs[h.topLatest].barrier)
    && (h.topSubmission != 0 ==> h.topSubmission in h.jobs && h.jobs[h.topSubmission].barrier)
  }

  ghost predicate InvAllocation(e: Enqueuer, next: int, h: History, rejects: set<Reject>) {
    && Top(h) <= next
    && (!e.Unlocked? ==> Top(h) < e.job.generation <= next && Lawful(e.job))
    && (e.Cleared? ==> e.job.barrier)
    && (forall r :: r in rejects ==> 1 <= r.generation <= next)
  }

  ghost predicate Undecided(h: History, job: Option<Job>) {
    job.Some? ==> Known(h, job.value) && !Decided(h, job.value.generation)
  }

  ghost predicate InvPlaces(p: Pending, hand: Option<Job>, h: History) {
    && Undecided(h, p.latest) && Undecided(h, p.submission) && Undecided(h, hand)
    && (p.latest.Some? ==> !p.latest.value.barrier)
    && (p.submission.Some? ==> p.submission.value.barrier)
    && (hand.Some? && p.latest.Some? ==> hand.value.generation != p.latest.value.generation)
    && (hand.Some? && p.submission.Some? ==> hand.value.generation < p.submission.value.generation)
  }

  /** Every job ever placed is still open or has been decided. */
  ghost predicate InvAccounted(p: Pending, hand: Option<Job>, h: History) {
    forall g :: g in h.jobs ==> Open(p, hand, g) || Decided(h, g)
  }

  /** Only a newer record of its kind replaces a job, and no submission is skipped as stale. */
  ghost predicate InvDisplaced(h: History) {
    && (forall g :: g in h.replaced ==> g in h.jobs && g < Newest(h, h.jobs[g].barrier))
    && (forall g :: g in h.skipped ==> g in h.jobs && !h.jobs[g].barrier && g < StoreGeneration(h))
    && (forall g :: g in h.failed ==> g in h.jobs && g !in h.saved)
  }

  ghost predicate InvSaved(h: History, store: Option<Record>) {
    && (forall i :: 0 <= i < |h.saved| ==> h.saved[i] in h.jobs)
    && (forall i, j :: 0 <= i < j < |h.saved| ==> h.saved[i] < h.saved[j])
    && store == (if h.saved == [] then h.initial else Some(h.jobs[StoreGeneration(h)].record))
  }

  ghost predicate InvPublished(a: Atomics, w: Worker, stored: int) {
    && 0 <= a.persisted <= stored && a.persistedLatest <= a.persisted
    && a.persistedSubmission <= a.persisted
    && (!w.Saved? ==> a.persisted == stored)
  }

  /** Nothing the mailbox has passed over is newer than a pending submission. */
  ghost predicate InvOrder(p: Pending, hand: Option<Job>, stored: int) {
    && (p.submission.Some? ==> stored < p.submission.value.generation)
    && (hand.Some? && hand.value.barrier ==> stored < hand.value.generation)
  }

  ghost predicate InvProgress(w: Worker, h: History) {
    var stored := StoreGeneration(h);
    && (w.Saving? ==> stored < w.job.generation)
    && (w.SkipStale? ==> !w.job.barrier && w.job.generation <= stored)
    && (w.Saved? || w.Counted? ==> Known(h, w.job) && w.job.generation == stored)
    && (w.SaveFailed? ==> Known(h, w.job) && w.job.generation in h.failed)
  }

  /** The saved submission is on its way to being held. */
  predicate BeforeHold(w: Worker) {
    ((w.Saved? || w.Counted?) && w.job.barrier) || (w.SetDurable? && w.durable) || w.Hold?
  }

  predicate AfterHold(w: Worker) {
    w.NotifyHeld? || w.CheckReleased? || w.Unhold?
  }

  ghost predicate InvHold(a: Atomics, w: Worker, h: History) {
    var stored := StoreGeneration(h);
    && 0 <= a.released <= stored
    && (BeforeHold(w) || AfterHold(w) ==>
          Known(h, w.job) && w.job.barrier && w.job.generation == stored)
    && (BeforeHold(w) ==> a.released < stored && a.held == 0)
    && (AfterHold(w) ==> a.held == stored || a.released >= stored)
    && (w.Unhold? ==> a.released >= stored)
    && (a.held != 0 ==>
          && a.held == stored && a.held in h.jobs && h.jobs[a.held].barrier
          && (AfterHold(w) || w.Receiving? || w.CheckHeld?))
  }

  ghost predicate InvExecutor(a: Atomics, x: Executor) {
    && (a.held != 0 && !x.ReleaseLoad? && !x.ReleaseSwap? ==> a.released < a.held)
    && match x
       case Polling(t) => t > 0
       case Subscribed(t, n) => t > 0 && n <= a.notifications
       case SawHeld(t, n, h) => t > 0 && n <= a.notifications && (h != 0 ==> a.held == h)
       case CheckFailed(t, n) => t > 0 && n <= a.notifications
       case Parked(t, n) => t > 0 && n <= a.notifications
       case Guarded(g) => g != 0 && a.held == g
       case Releasing(g) => g != 0 && a.held == g
       case ReleaseLoad(r) => r != 0 && r == a.released
       case ReleaseSwap(r, o) => r != 0 && r == a.released && 0 < o <= r
       case _ => true
  }

  /** A submission that has been announced has left a positive `required` generation behind. */
  ghost predicate InvRequired(required: int, e: Enqueuer, topSubmission: int) {
    && required >= 0
    && ((e.Announced? || e.Cleared?) && e.job.barrier ==> required >= 1)
    && (topSubmission != 0 ==> required >= 1)
  }

  /** A saved submission checkpoint stays the stored record until it has been released. */
  ghost predicate InvCheckpoints(a: Atomics, w: Worker, h: History) {
    forall g :: g in h.saved && g in h.jobs && h.jobs[g].barrier ==>
      a.released >= g || (g == StoreGeneration(h) && (BeforeHold(w) || a.held == g))
  }

  /** Someone has made work available and still owes the worker a token. */
  predicate WakePending(c: Channel, x: Executor) {
    c.token || c.owed > 0 || x.ReleaseSend?
  }

  ghost predicate InvWake(p: Pending, c: Channel, held: int, w: Worker, x: Executor) {
    && c.owed >= 0
    && (w.Receiving? && held == 0 && (p.latest.Some? || p.submission.Some?) ==> WakePending(c, x))
  }

  /** The notification a waiter subscribed at `seen` needs has happened or is still owed. */
  ghost predicate Signalled(a: Atomics, w: Worker, rejects: set<Reject>, seen: int) {
    || a.notifications > seen
    || w.NotifyHeld? || w.Notify? || (w.SetDurable? && !w.durable)
    || (exists r :: r in rejects && r.stage == NotifyRejected)
  }

  ghost predicate InvNotify(a: Atomics, w: Worker, rejects: set<Reject>, x: Executor) {
    match x
    case SawHeld(t, n, h) => h < t && a.durable && a.held >= t ==> Signalled(a, w, rejects, n)
    case CheckFailed(t, n) => a.durable && a.held >= t ==> Signalled(a, w, rejects, n)
    case Parked(t, n) =>
      (a.durable && a.held >= t) || a.failedSubmission >= t ==> Signalled(a, w, rejects, n)
    case _ => true
  }

  ghost predicate InvData(s: State) {
    && InvJobs(s.history)
    && InvAllocation(s.enqueuer, s.atomics.next, s.history, s.rejects)
    && InvPlaces(s.pending, InHand(s.worker), s.history)
    && InvAccounted(s.pending, InHand(s.worker), s.history)
    && InvDisplaced(s.history)
    && InvSaved(s.history, s.store)
    && InvOrder(s.pending, InHand(s.worker), StoreGeneration(s.history))
  }

  ghost predicate InvControl(s: State) {
    && InvProgress(s.worker, s.history)
    && InvPublished(s.atomics, s.worker, StoreGeneration(s.history))
    && InvHold(s.atomics, s.worker, s.history)
    && InvRequired(s.atomics.required, s.enqueuer, s.history.topSubmission)
    && InvExecutor(s.atomics, s.executor)
    && InvCheckpoints(s.atomics, s.worker, s.history)
    && InvWake(s.pending, s.channel, s.atomics.held, s.worker, s.executor)
    && InvNotify(s.atomics, s.worker, s.rejects, s.executor)
  }

  ghost predicate Inv(s: State) {
    InvData(s) && InvControl(s)
  }

  /** `t` agrees with `s` on everything the data invariant speaks of. */
  ghost predicate SameData(s: State, t: State) {
    && t.history == s.history && t.store == s.store && t.pending == s.pending && t.enqueuer == s.enqueuer
    && t.rejects == s.rejects && t.atomics.next == s.atomics.next && InHand(t.worker) == InHand(s.worker)
  }

  lemma SameDataKeeps(s: State, t: State)
    requires InvData(s) && SameData(s, t)
    ensures InvData(t)
  {
  }

  lemma StartInv(store: Option<Record>, durable: bool)
    ensures Inv(Start(store, durable))
  {
  }

  // ------------------------------------------------------------ executor steps

  lemma WaitKeepsControl(s: State)
    requires InvControl(s) && !InRelease(s.executor)
    ensures InvControl(s.(executor := WaitNext(s.atomics, s.executor)))
  {
  }

  lemma ReleaseKeepsControl(s: State)
    requires InvControl(s) && InRelease(s.executor)
    ensures InvControl(ReleaseNext(s))
  {
  }

  lemma ExecutorKeepsControl(s: State, x: ExecutorStep)
    requires InvControl(s) && ExecutorEnabled(s, x)
    ensures InvControl(ExecutorApply(s, x))
  {
    if x.Advance? {
      if InRelease(s.executor) { ReleaseKeepsControl(s); } else { WaitKeepsControl(s); }
    }
  }

  lemma ExecutorKeepsInv(s: State, x: ExecutorStep)
    requires Inv(s) && ExecutorEnabled(s, x)
    ensures Inv(ExecutorApply(s, x))
  {
    ExecutorKeepsControl(s, x);
    ExecutorKeepsData(s, x);
  }

  lemma ExecutorKeepsData(s: State, x: ExecutorStep)
    requires InvData(s)
    ensures InvData(ExecutorApply(s, x))
  {
    SameDataKeeps(s, ExecutorApply(s, x));
  }

  // ---------------------------------------------------------------- placing a job

  /** The lock holder's job is newer than anything placed, so it displaces only older ones. */
  lemma PlaceKeepsJobs(h: History, job: Job, prior: Option<Job>)
    requires InvJobs(h) && Lawful(job) && Top(h) < job.generation
    ensures InvJobs(Placed(h, job, prior))
    ensures job.generation !in h.jobs
  {
  }

  lemma PlaceKeepsPlaces(p: Pending, hand: Option<Job>, h: History, job: Job)
    requires InvJobs(h) && InvPlaces(p, hand, h) && InvDisplaced(h)
    requires forall g :: g in h.saved ==> g in h.jobs
    requires Lawful(job) && Top(h) < job.generation
    ensures var t := Placed(h, job, Slot(p, job.barrier));
            InvPlaces(Deposit(p, job), hand, t) && InvDisplaced(t)
  {
    PlaceKeepsJobs(h, job, Slot(p, job.barrier));
  }

  lemma PlaceKeepsAccounted(p: Pending, hand: Option<Job>, h: History, job: Job)
    requires InvAccounted(p, hand, h)
    ensures InvAccounted(Deposit(p, job), hand, Placed(h, job, Slot(p, job.barrier)))
  {
    var t := Placed(h, job, Slot(p, job.barrier));
    forall g | g in t.jobs
      ensures Open(Deposit(p, job), hand, g) || Decided(t, g)
    {
      if g != job.generation {
        assert Open(p, hand, g) || Decided(h, g);
      }
    }
  }

  lemma PlaceKeepsSaved(p: Pending, h: History, store: Option<Record>, job: Job)
    requires InvJobs(h) && InvSaved(h, store)
    requires Lawful(job) && Top(h) < job.generation
    ensures InvSaved(Placed(h, job, Slot(p, job.barrier)), store)
    ensures StoreGeneration(h) < job.generation
  {
    PlaceKeepsJobs(h, job, Slot(p, job.barrier));
  }

  lemma PlaceKeepsData(s: State)
    requires InvData(s) && CallerEnabled(s, Place)
    ensures InvData(PlaceJob(s, s.enqueuer.job))
  {
    var job := s.enqueuer.job;
    var t := PlaceJob(s, job);
    PlaceKeepsJobs(s.history, job, Slot(s.pending, job.barrier));
    assert InvJobs(t.history) && InvAllocation(t.enqueuer, t.atomics.next, t.history, t.rejects);
    PlaceKeepsPlaces(s.pending, InHand(s.worker), s.history, job);
    PlaceKeepsAccounted(s.pending, InHand(s.worker), s.history, job);
    PlaceKeepsSaved(s.pending, s.history, s.store, job);
  }

  lemma PlaceKeepsControl(s: State, job: Job)
    requires InvControl(s) && CallerEnabled(s, Place) && job == s.enqueuer.job
    requires InvSaved(s.history, s.store) && job.generation !in s.history.jobs
    ensures InvControl(PlaceJob(s, job))
  {
  }

  // ---------------------------------------------------------- other caller steps

  lemma RejectKeepsControl(s: State, r: Reject)
    requires InvControl(s) && r in s.rejects && r.generation >= 1
    ensures InvControl(RejectApply(s, r))
  {
    var t := RejectApply(s, r);
    assert t.worker == s.worker && t.history == s.history && t.executor == s.executor;
    assert InvNotify(t.atomics, t.worker, t.rejects, t.executor) by {
      if r.stage == StoreFailed {
        assert Reject(NotifyRejected, r.generation) in t.rejects;
      }
    }
  }

  lemma RejectKeepsData(s: State, r: Reject)
    requires InvData(s) && r in s.rejects
    ensures InvData(RejectApply(s, r))
  {
    var t := RejectApply(s, r);
    assert SameData(s, t.(rejects := s.rejects));
  }

  lemma EnqueueKeepsData(s: State, c: CallerStep)
    requires InvData(s) && CallerEnabled(s, c) && !c.Place? && !c.RejectNext?
    ensures InvData(CallerApply(s, c))
  {
  }

  lemma LockKeepsControl(s: State, c: CallerStep)
    requires InvControl(s) && CallerEnabled(s, c) && (c.Lock? || c.Send? || c.RejectAllocate?)
    ensures InvControl(CallerApply(s, c))
  {
  }

  lemma AnnounceKeepsControl(s: State, c: CallerStep)
    requires InvControl(s) && CallerEnabled(s, c) && (c.Announce? || c.Clear?) && Lawful(s.enqueuer.job)
    ensures InvControl(CallerApply(s, c))
  {
  }

  lemma CallerKeepsInv(s: State, c: CallerStep)
    requires Inv(s) && CallerEnabled(s, c)
    ensures Inv(CallerApply(s, c))
  {
    match c
    case Place =>
      PlaceKeepsData(s);
      PlaceKeepsJobs(s.history, s.enqueuer.job, None);
      PlaceKeepsControl(s, s.enqueuer.job);
    case RejectNext(r) =>
      RejectKeepsData(s, r);
      RejectKeepsControl(s, r);
    case _ =>
      EnqueueKeepsData(s, c);
      if c.Announce? || c.Clear? { AnnounceKeepsControl(s, c); } else { LockKeepsControl(s, c); }
  }

  // ---------------------------------------------------------------- worker steps

  lemma TakeKeepsData(s: State)
    requires InvData(s) && s.worker.Take?
    ensures InvData(TakeJob(s))
  {
  }

  /** Recording the fate of the job in hand, whatever it is. */
  lemma DecideKeeps(p: Pending, job: Job, h: History, h': History)
    requires InvPlaces(p, Some(job), h) && InvAccounted(p, Some(job), h) && h'.jobs == h.jobs
    requires forall g :: Decided(h', g) <==> Decided(h, g) || g == job.generation
    ensures InvPlaces(p, None, h') && InvAccounted(p, None, h')
  {
    forall g | g in h'.jobs
      ensures Open(p, None, g) || Decided(h', g)
    {
      assert Open(p, Some(job), g) || Decided(h, g);
    }
  }

  lemma CompareKeepsData(s: State, job: Job)
    requires InvData(s) && s.worker == Compare(job) && s.atomics.persisted == StoreGeneration(s.history)
    ensures InvData(CompareJob(s, job))
  {
    if s.atomics.persisted >= job.generation {
      var g := job.generation;
      assert g != StoreGeneration(s.history);
      DecideKeeps(s.pending, job, s.history, Skip(s.history, g));
      assert InvDisplaced(Skip(s.history, g));
    } else {
      SameDataKeeps(s, CompareJob(s, job));
    }
  }

  lemma KeepKeeps(h: History, store: Option<Record>, job: Job)
    requires InvDisplaced(h) && InvSaved(h, store) && Undecided(h, Some(job)) && StoreGeneration(h) < job.generation
    ensures InvDisplaced(Keep(h, job.generation)) && InvSaved(Keep(h, job.generation), Some(job.record))
    ensures StoreGeneration(Keep(h, job.generation)) == job.generation
    ensures forall g :: g in Keep(h, job.generation).saved <==> g in h.saved || g == job.generation
  {
    assert StoreGeneration(Keep(h, job.generation)) == job.generation;
  }

  lemma FailKeeps(s: State, job: Job)
    requires InvData(s) && s.worker == Saving(job)
    ensures InvData(SaveJob(s, job, false))
  {
    DecideKeeps(s.pending, job, s.history, Fail(s.history, job.generation));
    assert InvDisplaced(Fail(s.history, job.generation));
  }

  lemma SaveKeepsData(s: State, job: Job, ok: bool)
    requires InvData(s) && s.worker == Saving(job) && StoreGeneration(s.history) < job.generation
    ensures InvData(SaveJob(s, job, ok))
  {
    var g := job.generation;
    if ok {
      KeepKeeps(s.history, s.store, job);
      DecideKeeps(s.pending, job, s.history, Keep(s.history, g));
    } else {
      FailKeeps(s, job);
    }
  }

  lemma SaveKeepsControl(s: State, job: Job, ok: bool)
    requires InvControl(s) && Known(s.history, job) && s.worker == Saving(job)
    ensures InvControl(SaveJob(s, job, ok))
  {
  }

  lemma SavedKeepsControl(s: State)
    requires InvControl(s) && s.worker.Saved?
    ensures InvControl(PublishJob(s))
  {
  }

  lemma CountedKeepsControl(s: State)
    requires InvControl(s) && (s.worker.Counted? || s.worker.SkipStale?)
    ensures InvControl(PublishJob(s))
  {
  }

  lemma FailedKeepsControl(s: State)
    requires InvControl(s) && s.worker.SaveFailed?
    ensures InvControl(PublishJob(s))
  {
  }

  lemma HoldKeepsControl(s: State)
    requires InvControl(s)
    requires s.worker.SetDurable? || s.worker.Hold? || s.worker.NotifyHeld? || s.worker.CheckReleased?
             || s.worker.Unhold?
    ensures InvControl(HoldJob(s))
  {
  }

  lemma TakingKeepsControl(s: State, ok: bool)
    requires InvControl(s) && WorkerEnabled(s)
    requires InvOrder(s.pending, InHand(s.worker), StoreGeneration(s.history))
    requires s.worker.Take? || s.worker.Compare?
    ensures InvControl(WorkerApply(s, ok))
  {
  }

  lemma IdleWorkerKeepsControl(s: State, ok: bool)
    requires InvControl(s) && WorkerEnabled(s) && (s.worker.Receiving? || s.worker.CheckHeld? || s.worker.Notify?)
    ensures InvControl(WorkerApply(s, ok))
  {
  }

  lemma WorkerKeepsControl(s: State, ok: bool)
    requires InvControl(s) && WorkerEnabled(s)
    requires InvOrder(s.pending, InHand(s.worker), StoreGeneration(s.history))
    requires s.worker.Saving? ==> Known(s.history, s.worker.job)
    ensures InvControl(WorkerApply(s, ok))
  {
    match s.worker
    case Saving(job) => SaveKeepsControl(s, job, ok);
    case SkipStale(_) => CountedKeepsControl(s);
    case Saved(_) => SavedKeepsControl(s);
    case Counted(_) => CountedKeepsControl(s);
    case SaveFailed(_) => FailedKeepsControl(s);
    case Take => TakingKeepsControl(s, ok);
    case Compare(job) => TakingKeepsControl(s, ok);
    case Receiving => IdleWorkerKeepsControl(s, ok);
    case CheckHeld => IdleWorkerKeepsControl(s, ok);
    case Notify => IdleWorkerKeepsControl(s, ok);
    case _ => HoldKeepsControl(s);
  }

  lemma QuietWorkerKeepsData(s: State, ok: bool)
    requires InvData(s) && WorkerEnabled(s) && InHand(s.worker).None? && !s.worker.Take?
    ensures InvData(WorkerApply(s, ok))
  {
    SameDataKeeps(s, WorkerApply(s, ok));
  }

  lemma WorkerKeepsInv(s: State, ok: bool)
    requires Inv(s) && WorkerEnabled(s)
    ensures Inv(WorkerApply(s, ok))
  {
    WorkerKeepsControl(s, ok);
    match s.worker
    case Saving(job) => SaveKeepsData(s, job, ok);
    case Take => TakeKeepsData(s);
    case Compare(job) => CompareKeepsData(s, job);
    case _ => QuietWorkerKeepsData(s, ok);
  }
}
