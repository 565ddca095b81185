/**
 What the waiters of the recovery-persistence protocol are answered: every record gets an answer, and an
 answer of success covers every record that was enqueued before the question.
 */
module RecoveryAnswers {
  import opened Common
  import opened RecoveryProtocol
  import opened RecoveryInvariant
  import opened RecoveryTheorems

  // ------------------------------------------------------------------------- announcements

  /** The newest record of each kind is announced, unless a rejection was announced since. */
  ghost predicate Told(a: Atomics, e: Enqueuer, h: History, rejects: set<Reject>) {
    && a.latest == (if e.Announced? && !e.job.barrier then e.job.generation else h.topLatest)
    && a.required <= a.next
    && (a.required in h.jobs ==> a.required == h.topSubmission)
    && (!e.Unlocked? && a.required == e.job.generation ==> e.job.barrier && !e.Allocated?)
    && ((e.Announced? || e.Cleared?) && e.job.barrier ==> a.required !in h.jobs)
    && (forall r :: r in rejects ==> r.generation !in h.jobs && (!e.Unlocked? ==> r.generation != e.job.generation))
  }

  // ------------------------------------------------------------------------- publications

  /** The worker has decided job `g` and is about to publish what became of it. */
  predicate Publishing(w: Worker, g: int, failed: bool) {
    if failed then w.SaveFailed? && w.job.generation == g
    else (w.Saved? || w.Counted? || w.SkipStale?) && w.job.generation == g
  }

  /** The generation the worker has published for jobs of a kind, by outcome. */
  function Published(a: Atomics, barrier: bool, failed: bool): int {
    if failed then if barrier then a.failedSubmission else a.failedLatest
    else if barrier then a.persistedSubmission else a.persistedLatest
  }

  ghost predicate AllPublished(a: Atomics, w: Worker, h: History) {
    && a.persistedLatest >= 0 && (w.SkipStale? ==> Known(h, w.job))
    && (forall g :: g in h.jobs && (g in h.saved || g in h.skipped) ==>
          Published(a, h.jobs[g].barrier, false) >= g || Publishing(w, g, false))
    && (forall g :: g in h.jobs && g in h.failed ==>
          Published(a, h.jobs[g].barrier, true) >= g || Publishing(w, g, true))
  }

  /** A rejection that has come as far as notifying is recorded as failed. */
  ghost predicate RejectsRecorded(a: Atomics, rejects: set<Reject>) {
    forall r :: r in rejects && r.stage == NotifyRejected ==> a.failedSubmission >= r.generation
  }

  ghost predicate Answers(s: State) {
    && Told(s.atomics, s.enqueuer, s.history, s.rejects)
    && AllPublished(s.atomics, s.worker, s.history)
    && RejectsRecorded(s.atomics, s.rejects)
  }

  lemma StartAnswers(store: Option<Record>, durable: bool)
    ensures Answers(Start(store, durable))
  {
  }

  /** Nothing that the worker publishes has changed. */
  predicate SamePublished(a: Atomics, b: Atomics) {
    && b.persistedLatest == a.persistedLatest && b.failedLatest == a.failedLatest
    && b.persistedSubmission == a.persistedSubmission && b.failedSubmission >= a.failedSubmission
  }

  lemma SameKeepsPublished(a: Atomics, w: Worker, h: History, a': Atomics, w': Worker)
    requires AllPublished(a, w, h) && SamePublished(a, a')
    requires (w'.SkipStale? ==> w == w') && forall g, failed :: Publishing(w, g, failed) ==> Publishing(w', g, failed)
    ensures AllPublished(a', w', h)
  {
  }

  lemma PlaceKeepsAnswers(s: State, job: Job, t: State)
    requires InvData(s) && Answers(s) && CallerEnabled(s, Place) && job == s.enqueuer.job && t == PlaceJob(s, job)
    ensures Answers(t)
  {
    PlaceKeepsJobs(s.history, job, Slot(s.pending, job.barrier));
    assert job.generation !in s.history.saved;
  }

  lemma RejectKeepsAnswers(s: State, r: Reject, t: State)
    requires InvData(s) && Answers(s) && r in s.rejects && t == RejectApply(s, r)
    ensures Answers(t)
  {
    assert t.history == s.history && t.worker == s.worker && t.enqueuer == s.enqueuer;
    SameKeepsPublished(s.atomics, s.worker, s.history, t.atomics, t.worker);
  }

  lemma AllocateKeepsTold(s: State, c: CallerStep)
    requires InvJobs(s.history) && InvAllocation(s.enqueuer, s.atomics.next, s.history, s.rejects)
    requires Told(s.atomics, s.enqueuer, s.history, s.rejects)
    requires CallerEnabled(s, c) && (c.Lock? || c.RejectAllocate?)
    ensures var t := CallerApply(s, c); Told(t.atomics, t.enqueuer, t.history, t.rejects)
  {
    assert forall g :: g in s.history.jobs ==> g <= Top(s.history);
  }

  lemma AnnounceKeepsTold(s: State, c: CallerStep)
    requires InvJobs(s.history) && InvAllocation(s.enqueuer, s.atomics.next, s.history, s.rejects)
    requires Told(s.atomics, s.enqueuer, s.history, s.rejects)
    requires CallerEnabled(s, c) && (c.Announce? || c.Clear? || c.Send?)
    ensures var t := CallerApply(s, c); Told(t.atomics, t.enqueuer, t.history, t.rejects)
  {
    assert forall g :: g in s.history.jobs ==> g <= Top(s.history);
  }

  lemma CallerKeepsAnswers(s: State, c: CallerStep, t: State)
    requires InvData(s) && Answers(s) && CallerEnabled(s, c) && t == CallerApply(s, c)
    ensures Answers(t)
  {
    if c.Place? {
      PlaceKeepsAnswers(s, s.enqueuer.job, t);
    } else if c.RejectNext? {
      RejectKeepsAnswers(s, c.reject, t);
    } else {
      CallerFrame(s, c);
      if c.Lock? || c.RejectAllocate? { AllocateKeepsTold(s, c); } else { AnnounceKeepsTold(s, c); }
      SameKeepsPublished(s.atomics, s.worker, s.history, t.atomics, t.worker);
    }
  }

  lemma DecideKeepsPublished(a: Atomics, w: Worker, h: History, w': Worker, h': History, g: int, failed: bool)
    requires AllPublished(a, w, h) && (w.Compare? || w.Saving?) && h'.jobs == h.jobs
    requires Publishing(w', g, failed) && Known(h, w'.job)
    requires if failed then h' == Fail(h, g) else h' == Skip(h, g) || h' == Keep(h, g)
    ensures AllPublished(a, w', h')
  {
  }

  lemma PublishKeepsPublished(a: Atomics, w: Worker, h: History, a': Atomics, w': Worker, job: Job, failed: bool)
    requires AllPublished(a, w, h) && Known(h, job) && Publishing(w, job.generation, failed)
    requires Published(a', job.barrier, failed) >= job.generation && a'.persistedLatest >= 0
    requires !w'.SkipStale? && forall b, f :: Published(a', b, f) >= Published(a, b, f)
    ensures AllPublished(a', w', h)
  {
  }

  predicate Publishes(w: Worker) {
    w.SkipStale? || w.Counted? || w.SaveFailed?
  }

  lemma PublishAnswers(s: State, t: State)
    requires InvControl(s) && Answers(s) && Publishes(s.worker) && t == PublishJob(s)
    requires Known(s.history, s.worker.job)
    ensures AllPublished(t.atomics, t.worker, t.history)
  {
    PublishKeepsPublished(s.atomics, s.worker, s.history, t.atomics, t.worker, s.worker.job, s.worker.SaveFailed?);
  }

  lemma WorkerTells(s: State, ok: bool, t: State)
    requires Answers(s) && t == WorkerApply(s, ok)
    ensures Told(t.atomics, t.enqueuer, t.history, t.rejects) && RejectsRecorded(t.atomics, t.rejects)
  {
    WorkerFrame(s, ok);
    assert t.atomics.latest == s.atomics.latest && t.atomics.next == s.atomics.next;
    assert t.atomics.failedSubmission >= s.atomics.failedSubmission;
  }

  lemma QuietWorkerKeepsPublished(s: State, ok: bool, t: State)
    requires Answers(s) && t == WorkerApply(s, ok)
    requires !Publishes(s.worker) && !s.worker.Compare? && !s.worker.Saving?
    ensures AllPublished(t.atomics, t.worker, t.history)
  {
    assert t.history == s.history;
    SameKeepsPublished(s.atomics, s.worker, s.history, t.atomics, t.worker);
  }

  lemma WorkerKeepsPublished(s: State, ok: bool, t: State)
    requires Inv(s) && Answers(s) && WorkerEnabled(s) && t == WorkerApply(s, ok)
    ensures AllPublished(t.atomics, t.worker, t.history)
  {
    if Publishes(s.worker) {
      PublishAnswers(s, t);
    } else if t.worker.SkipStale? || t.worker.Saved? || t.worker.SaveFailed? {
      DecideKeepsPublished(s.atomics, s.worker, s.history, t.worker, t.history, s.worker.job.generation,
                           t.worker.SaveFailed?);
    } else if s.worker.Compare? {
      SameKeepsPublished(s.atomics, s.worker, s.history, t.atomics, t.worker);
    } else {
      QuietWorkerKeepsPublished(s, ok, t);
    }
  }

  lemma WorkerKeepsAnswers(s: State, ok: bool, t: State)
    requires Inv(s) && Answers(s) && WorkerEnabled(s) && t == WorkerApply(s, ok)
    ensures Answers(t)
  {
    WorkerTells(s, ok, t);
    WorkerKeepsPublished(s, ok, t);
  }

  lemma StepKeepsAnswers(s: State, a: Step)
    requires Inv(s) && Answers(s) && Enabled(s, a)
    ensures Answers(Apply(s, a))
  {
    match a
    case Caller(c) => CallerKeepsAnswers(s, c, Apply(s, a));
    case Work(ok) => WorkerKeepsAnswers(s, ok, Apply(s, a));
    case Execute(x) => ExecutorFrame(s, x);
  }

  lemma {:induction false} RunKeepsAnswers(s: State, steps: seq<Step>, t: State)
    requires Inv(s) && Answers(s) && Runs(s, steps, t)
    ensures Inv(t) && Answers(t)
    decreases |steps|
  {
    if steps != [] {
      StepKeepsInv(s, steps[0]);
      StepKeepsAnswers(s, steps[0]);
      RunKeepsAnswers(Apply(s, steps[0]), steps[1..], t);
    }
  }

  lemma ReachableAnswers(s: State)
    requires Reachable(s)
    ensures Inv(s) && Answers(s)
  {
    var store, durable, steps :| Runs(Start(store, durable), steps, s);
    StartInv(store, durable);
    StartAnswers(store, durable);
    RunKeepsAnswers(Start(store, durable), steps, s);
  }

  // --------------------------------------------------------------- every record is answered

  /** The mailbox is drained, and the worker has published all it decided. */
  predicate Settled(s: State) {
    && Quiescent(s) && s.enqueuer.Unlocked?
    && !s.worker.Saved? && !s.worker.Counted? && !s.worker.SkipStale? && !s.worker.SaveFailed?
  }

  /** Once the mailbox is drained, `await_latest` has its answer: the announced record is persisted or failed. */
  lemma LatestIsAnswered(s: State)
    requires Reachable(s) && Settled(s)
    ensures s.atomics.persistedLatest >= s.atomics.latest || s.atomics.failedLatest >= s.atomics.latest
    ensures s.atomics.latest !in s.history.failed ==> s.atomics.persistedLatest >= s.atomics.latest
  {
    ReachableAnswers(s);
    var h, g := s.history, s.history.topLatest;
    if g != 0 {
      assert Open(s.pending, InHand(s.worker), g) || Decided(h, g);
    }
  }

  /** Once the mailbox is drained, the newest submission failed, or it is held or on its way, or was released. */
  lemma SubmissionIsAnswered(s: State)
    requires Reachable(s) && Settled(s) && s.history.topSubmission != 0
    ensures var g := s.history.topSubmission;
            s.atomics.failedSubmission >= g || s.atomics.held == g || BeforeHold(s.worker) || s.atomics.released >= g
  {
    ReachableAnswers(s);
    var h, g := s.history, s.history.topSubmission;
    assert Open(s.pending, InHand(s.worker), g) || Decided(h, g);
  }

  // ----------------------------------------------------------------------- one look per wake-up

  predicate OnlyAdvances(steps: seq<Step>) {
    forall i :: 0 <= i < |steps| ==> steps[i] == Execute(Advance)
  }

  /**
   A waiter that is woken looks once: with an answer it claims the held checkpoint or gives up, and without one
   it parks again until the next notification.
   */
  lemma WokenLooksOnce(s: State) returns (steps: seq<Step>, t: State)
    requires s.executor.Parked? && s.atomics.notifications > s.executor.seen
    ensures OnlyAdvances(steps) && Runs(s, steps, t) && t == s.(executor := t.executor)
    ensures
      var a, target := s.atomics, s.executor.target;
      t.executor == if a.durable && a.held >= target then Guarded(a.held)
                    else if a.failedSubmission >= target then Idle
                    else Parked(target, a.notifications)
    ensures !ExecutorEnabled(t, Advance)
  {
    var a, target, e := s.atomics, s.executor.target, Execute(Advance);
    var n := a.notifications;
    var s1 := s.(executor := Polling(target));
    var s2 := s.(executor := Subscribed(target, n));
    var s3 := s.(executor := SawHeld(target, n, a.held));
    var s4 := s.(executor := WaitNext(a, s3.executor));
    assert Apply(s, e) == s1 && Apply(s1, e) == s2 && Apply(s2, e) == s3 && Apply(s3, e) == s4;
    if s4.executor.Guarded? {
      steps, t := [e, e, e, e], s4;
    } else {
      t := s.(executor := WaitNext(a, s4.executor));
      steps := [e, e, e, e, e];
      assert Apply(s4, e) == t;
      assert Runs(s4, [e], t) by { assert [e][1..] == []; }
      assert Runs(s3, [e, e], t) by { assert [e, e][1..] == [e]; }
    }
    LookRun(s, s1, s2, s3, steps, t);
  }

  lemma LookRun(s: State, s1: State, s2: State, s3: State, steps: seq<Step>, t: State)
    requires |steps| >= 3 && steps[0] == steps[1] == steps[2] == Execute(Advance)
    requires ExecutorEnabled(s, Advance) && ExecutorEnabled(s1, Advance) && ExecutorEnabled(s2, Advance)
    requires ExecutorApply(s, Advance) == s1 && ExecutorApply(s1, Advance) == s2 && ExecutorApply(s2, Advance) == s3
    requires Runs(s3, steps[3..], t)
    ensures Runs(s, steps, t)
  {
    assert steps[1..][1..] == steps[2..] && steps[2..][1..] == steps[3..];
    assert steps[1..][0] == steps[1] && steps[2..][0] == steps[2];
    assert Runs(s2, steps[2..], t);
    assert Runs(s1, steps[1..], t);
  }

  // ------------------------------------------------------------- a failed submission is not durable

  /** The submission the worker is at, from taking it to setting `durable`. */
  predicate AtWork(w: Worker, job: Job) {
    && (w.Compare? || w.Saving? || w.Saved? || w.Counted? || w.SaveFailed? || w.SetDurable?)
    && w.job == job && job.barrier
  }

  /** The worker is about to clear `durable` for the failed submission `g`. */
  predicate Clearing(w: Worker, g: int) {
    (w.SaveFailed? || (w.SetDurable? && !w.durable)) && w.job.generation == g
  }

  /** A failed submission is older than any that is pending, and than the one at work unless it is that one. */
  ghost predicate FailedBelow(p: Pending, w: Worker, h: History) {
    forall g :: g in h.failed && g in h.jobs && h.jobs[g].barrier ==>
      && (p.submission.Some? ==> g < p.submission.value.generation)
      && (forall job :: AtWork(w, job) ==> g < job.generation || Clearing(w, g))
  }

  ghost predicate Failing(s: State) {
    && FailedBelow(s.pending, s.worker, s.history)
    && (s.atomics.durable && s.history.topSubmission in s.history.failed ==>
          Clearing(s.worker, s.history.topSubmission))
  }

  lemma CallerKeepsFailing(s: State, c: CallerStep, t: State)
    requires InvData(s) && Failing(s) && CallerEnabled(s, c) && t == CallerApply(s, c)
    ensures Failing(t)
  {
    CallerFrame(s, c);
    if c.Place? {
      PlaceKeepsJobs(s.history, s.enqueuer.job, Slot(s.pending, s.enqueuer.job.barrier));
      assert forall g :: g in s.history.jobs ==> g <= Top(s.history);
    } else {
      assert t.pending == s.pending && (t.atomics.durable ==> s.atomics.durable);
    }
  }

  lemma DecidingKeepsFailing(s: State, ok: bool, t: State)
    requires Inv(s) && Failing(s) && (s.worker.Take? || s.worker.Compare? || s.worker.Saving?)
    requires t == WorkerApply(s, ok)
    ensures Failing(t)
  {
    WorkerFrame(s, ok);
  }

  /** Where nothing is decided, the submission at work stays the one at work, if any. */
  lemma SameFailedBelow(p: Pending, w: Worker, h: History, w': Worker)
    requires FailedBelow(p, w, h)
    requires forall job :: AtWork(w', job) ==> AtWork(w, job)
    requires forall g :: Clearing(w, g) ==> Clearing(w', g) || !(exists job :: AtWork(w', job))
    ensures FailedBelow(p, w', h)
  {
  }

  lemma SavedKeepsFailing(s: State, t: State)
    requires Failing(s) && InvJobs(s.history) && s.worker.SetDurable? && s.worker.durable && t == HoldJob(s)
    requires Known(s.history, s.worker.job) && s.worker.job.barrier
    ensures Failing(t)
  {
    assert AtWork(s.worker, s.worker.job);
    assert s.history.topSubmission !in s.history.failed;
    SameFailedBelow(s.pending, s.worker, s.history, t.worker);
  }

  lemma QuietKeepsFailing(s: State, ok: bool, t: State)
    requires Failing(s) && t == WorkerApply(s, ok)
    requires !s.worker.Take? && !s.worker.Compare? && !s.worker.Saving? && !(s.worker.SetDurable? && s.worker.durable)
    requires s.worker.SaveFailed? ==> Known(s.history, s.worker.job)
    requires InvJobs(s.history)
    ensures Failing(t)
  {
    assert t.history == s.history && t.pending == s.pending && (t.atomics.durable ==> s.atomics.durable);
    SameFailedBelow(s.pending, s.worker, s.history, t.worker);
  }

  lemma WorkerKeepsFailing(s: State, ok: bool, t: State)
    requires Inv(s) && Failing(s) && WorkerEnabled(s) && t == WorkerApply(s, ok)
    ensures Failing(t)
  {
    if s.worker.Take? || s.worker.Compare? || s.worker.Saving? {
      DecidingKeepsFailing(s, ok, t);
    } else if s.worker.SetDurable? && s.worker.durable {
      SavedKeepsFailing(s, t);
    } else {
      QuietKeepsFailing(s, ok, t);
    }
  }

  lemma StepKeepsFailing(s: State, a: Step)
    requires Inv(s) && Failing(s) && Enabled(s, a)
    ensures Failing(Apply(s, a))
  {
    match a
    case Caller(c) => CallerKeepsFailing(s, c, Apply(s, a));
    case Work(ok) => WorkerKeepsFailing(s, ok, Apply(s, a));
    case Execute(x) => ExecutorFrame(s, x);
  }

  lemma {:induction false} RunKeepsFailing(s: State, steps: seq<Step>, t: State)
    requires Inv(s) && Failing(s) && Runs(s, steps, t)
    ensures Failing(t)
    decreases |steps|
  {
    if steps != [] {
      StepKeepsInv(s, steps[0]);
      StepKeepsFailing(s, steps[0]);
      RunKeepsFailing(Apply(s, steps[0]), steps[1..], t);
    }
  }

  /** Once the worker is done with a newest submission whose save failed, `durable` is clear until a newer one. */
  lemma FailedIsNotDurable(s: State)
    requires Reachable(s) && s.history.topSubmission in s.history.failed
    requires !s.worker.SaveFailed? && !s.worker.SetDurable?
    ensures !s.atomics.durable
  {
    var store, durable, steps :| Runs(Start(store, durable), steps, s);
    StartInv(store, durable);
    RunKeepsFailing(Start(store, durable), steps, s);
  }

  // ------------------------------------------------------- an answer covers what came before

  /** The generations a run places, in order. */
  function Tags(s: State, steps: seq<Step>): seq<int>
    decreases |steps|
  {
    if steps == [] || !Enabled(s, steps[0]) then []
    else
      var rest := Tags(Apply(s, steps[0]), steps[1..]);
      if steps[0] == Caller(Place) then [s.enqueuer.job.generation] + rest else rest
  }

  /** Generation `tags[i]` is job number `i` of those in `h` that are newer than `floor`. */
  ghost predicate Numbers(tags: seq<int>, records: seq<Record>, floor: int, h: History) {
    && |tags| == |records|
    && (forall i :: 0 <= i < |tags| ==> floor < tags[i] && tags[i] in h.jobs && h.jobs[tags[i]].record == records[i])
    && (forall i, j :: 0 <= i < j < |tags| ==> tags[i] < tags[j])
    && (forall g :: g in h.jobs && floor < g ==> g in tags)
  }

  /** What a step does to the jobs placed so far. */
  lemma StepPlaces(s: State, a: Step)
    requires InvData(s) && Enabled(s, a)
    ensures var h, t := s.history, Apply(s, a);
            if a == Caller(Place) then
              && Top(h) < s.enqueuer.job.generation == Top(t.history)
              && t.history.jobs == h.jobs[s.enqueuer.job.generation := s.enqueuer.job]
            else t.history.jobs == h.jobs && Top(t.history) == Top(h)
  {
    match a
    case Caller(c) => CallerFrame(s, c);
    case Work(ok) => WorkerFrame(s, ok);
    case Execute(x) => ExecutorFrame(s, x);
  }

  /** `h'` has the jobs of `h`, and otherwise only newer ones. */
  ghost predicate Extends(h: History, h': History) {
    && Top(h) <= Top(h')
    && (forall g :: g in h.jobs ==> g in h'.jobs && h'.jobs[g] == h.jobs[g])
    && (forall g :: g in h'.jobs && g <= Top(h) ==> g in h.jobs)
  }

  lemma StepExtends(s: State, a: Step, h: History)
    requires InvData(s) && Enabled(s, a) && Extends(Apply(s, a).history, h)
    ensures Extends(s.history, h)
  {
    StepPlaces(s, a);
    assert forall g :: g in s.history.jobs ==> g <= Top(s.history);
  }

  lemma {:induction false} RunExtends(s: State, steps: seq<Step>, t: State)
    requires Inv(s) && Runs(s, steps, t)
    ensures Extends(s.history, t.history)
    decreases |steps|
  {
    if steps != [] {
      StepKeepsInv(s, steps[0]);
      RunExtends(Apply(s, steps[0]), steps[1..], t);
      StepExtends(s, steps[0], t.history);
    }
  }

  /** One more job in front. */
  lemma NumbersGrow(tags: seq<int>, records: seq<Record>, floor: int, job: Job, h: History)
    requires Numbers(tags, records, job.generation, h) && floor < job.generation && Known(h, job)
    requires forall g :: g in h.jobs && g <= job.generation ==> g <= floor || g == job.generation
    ensures Numbers([job.generation] + tags, [job.record] + records, floor, h)
  {
    forall g | g in h.jobs && floor < g
      ensures g in [job.generation] + tags
    {
      if g > job.generation {
        assert g in tags;
      }
    }
  }

  /** The first step of a run, before the numbers of the rest. */
  lemma StepNumbers(s: State, handed: Option<Record>, a: Step, tags: seq<int>, records: seq<Record>, h: History)
    requires InvData(s) && Enabled(s, a) && Carries(s.enqueuer, handed)
    requires Numbers(tags, records, Top(Apply(s, a).history), h)
    requires Extends(Apply(s, a).history, h)
    ensures if a == Caller(Place)
            then
              && handed.Some?
              && Numbers([s.enqueuer.job.generation] + tags, [handed.value] + records, Top(s.history), h)
            else Numbers(tags, records, Top(s.history), h)
  {
    StepPlaces(s, a);
    if a == Caller(Place) {
      StepCarries(s, handed, a);
      NumbersGrow(tags, records, Top(s.history), s.enqueuer.job, h);
    }
  }

  lemma {:induction false} RunNumbers(s: State, handed: Option<Record>, steps: seq<Step>, t: State)
    requires Inv(s) && Carries(s.enqueuer, handed) && Runs(s, steps, t)
    ensures Numbers(Tags(s, steps), Enqueued(handed, steps), Top(s.history), t.history)
    decreases |steps|
  {
    if steps == [] {
      assert forall g :: g in s.history.jobs ==> g <= Top(s.history);
    } else {
      var a, u := steps[0], Apply(s, steps[0]);
      StepKeepsInv(s, a);
      StepCarries(s, handed, a);
      RunNumbers(u, Handed(handed, a), steps[1..], t);
      RunExtends(u, steps[1..], t);
      StepNumbers(s, handed, a, Tags(u, steps[1..]), Enqueued(Handed(handed, a), steps[1..]), t.history);
    }
  }

  lemma {:induction false} TagsJoin(s: State, handed: Option<Record>, a: seq<Step>, t: State, b: seq<Step>)
    requires Runs(s, a, t)
    ensures Tags(s, a) <= Tags(s, a + b) && Enqueued(handed, a) <= Enqueued(handed, a + b)
    decreases |a|
  {
    if a != [] {
      assert (a + b)[0] == a[0] && (a + b)[1..] == a[1..] + b;
      TagsJoin(Apply(s, a[0]), Handed(handed, a[0]), a[1..], t, b);
    }
  }

  /** A store that is as new as the newest record of its kind in `h` holds that record or a later one. */
  lemma StoreCovers(early: seq<int>, before: seq<Record>, h: History, tags: seq<int>, records: seq<Record>, u: State,
                    i: int)
    returns (k: int)
    requires Numbers(early, before, 0, h) && InvJobs(h) && 0 <= i < |before|
    requires Numbers(tags, records, 0, u.history) && InvSaved(u.history, u.store) && early <= tags
    requires StoreGeneration(u.history) >= Newest(h, before[i].state == Submitting)
    ensures i <= k < |records| && u.store == Some(records[k])
  {
    var g := StoreGeneration(u.history);
    assert 0 < early[i] <= Newest(h, before[i].state == Submitting);
    assert g in u.history.jobs && g in tags;
    k :| 0 <= k < |tags| && tags[k] == g;
    assert tags[i] == early[i];
  }

  /** A run of two parts numbers the records of its first part as that part does. */
  lemma NumberedPrefix(start: State, before: seq<Step>, s: State, after: seq<Step>, u: State)
    requires Inv(start) && Carries(start.enqueuer, None) && Top(start.history) == 0
    requires Runs(start, before, s) && Runs(s, after, u)
    ensures Inv(s) && Inv(u)
    ensures Numbers(Tags(start, before), Enqueued(None, before), 0, s.history)
    ensures Numbers(Tags(start, before + after), Enqueued(None, before + after), 0, u.history)
    ensures Tags(start, before) <= Tags(start, before + after)
    ensures Enqueued(None, before) <= Enqueued(None, before + after)
  {
    RunKeepsInv(start, before, s);
    RunKeepsInv(s, after, u);
    RunsJoin(start, before, s, after, u);
    RunNumbers(start, None, before, s);
    RunNumbers(start, None, before + after, u);
    TagsJoin(start, None, before, s, after);
  }

  /** The answer of `await_latest` is about the newest ordinary record placed before the call. */
  lemma LatestIsCovered(s: State, wait: seq<Step>, t: State, later: seq<Step>, u: State)
    requires Reachable(s) && Runs(s, wait, t) && Runs(t, later, u)
    requires s.atomics.latest == 0 || t.atomics.persistedLatest >= s.atomics.latest
    ensures StoreGeneration(u.history) >= s.history.topLatest
  {
    AwaitLatestIsDurable(s, wait, t, later, u);
    ReachableAnswers(s);
  }

  /**
   `await_latest` called in `s`, after the steps `before`, and answering true in `t`: in every continuation
   the stored record is the last ordinary one enqueued by then, or one enqueued after it.
   */
  lemma AwaitLatestCoversEnqueued(
    store: Option<Record>, durable: bool, before: seq<Step>, s: State, wait: seq<Step>, t: State,
    later: seq<Step>, u: State, i: int) returns (k: int)
    requires Runs(Start(store, durable), before, s) && Runs(s, wait, t) && Runs(t, later, u)
    requires s.atomics.latest == 0 || t.atomics.persistedLatest >= s.atomics.latest
    requires 0 <= i < |Enqueued(None, before)| && Enqueued(None, before)[i].state != Submitting
    ensures Enqueued(None, before) <= Enqueued(None, before + (wait + later))
    ensures i <= k < |Enqueued(None, before + (wait + later))|
    ensures u.store == Some(Enqueued(None, before + (wait + later))[k])
  {
    var start := Start(store, durable);
    StartInv(store, durable);
    RunsJoin(s, wait, t, later, u);
    NumberedPrefix(start, before, s, wait + later, u);
    LatestIsCovered(s, wait, t, later, u);
    k := StoreCovers(Tags(start, before), Enqueued(None, before), s.history,
                     Tags(start, before + (wait + later)), Enqueued(None, before + (wait + later)), u, i);
  }

  // ------------------------------------------------------------------- claims and rejections

  predicate NothingRejected(steps: seq<Step>) {
    forall i :: 0 <= i < |steps| ==> steps[i] != Caller(RejectAllocate)
  }

  /** Without rejections the required generation is that of the newest submission announced. */
  ghost predicate Requires(s: State) {
    && s.rejects == {}
    && s.atomics.required ==
       if (s.enqueuer.Announced? || s.enqueuer.Cleared?) && s.enqueuer.job.barrier then s.enqueuer.job.generation
       else s.history.topSubmission
  }

  lemma StepRequires(s: State, a: Step)
    requires InvData(s) && Requires(s) && Enabled(s, a) && a != Caller(RejectAllocate)
    ensures Requires(Apply(s, a))
  {
    match a
    case Caller(c) => CallerFrame(s, c);
    case Work(ok) => WorkerFrame(s, ok);
    case Execute(x) => ExecutorFrame(s, x);
  }

  lemma {:induction false} RunRequires(s: State, steps: seq<Step>, t: State)
    requires Inv(s) && Requires(s) && Runs(s, steps, t) && NothingRejected(steps)
    ensures Requires(t)
    decreases |steps|
  {
    if steps != [] {
      StepKeepsInv(s, steps[0]);
      StepRequires(s, steps[0]);
      RunRequires(Apply(s, steps[0]), steps[1..], t);
    }
  }

  /** The claim is as new as the newest submission placed before the target was loaded. */
  lemma ClaimIsCovered(s: State, t: State)
    requires Inv(s) && Requires(s) && Inv(t)
    requires t.executor.SawHeld? && t.executor.target == s.atomics.required && WaitNext(t.atomics, t.executor).Guarded?
    ensures StoreGeneration(t.history) >= s.history.topSubmission
    ensures t.store.Some? && t.store.value.state == Submitting
  {
  }

  /**
   `await_submission` loads its target in `s`, after the steps `before`, and claims a checkpoint in `t`.
   If nothing was rejected before, the claimed record, which is the stored one, is Submitting and is the
   last submission enqueued by then, or one enqueued after it.
   */
  lemma ClaimCoversEnqueued(
    store: Option<Record>, durable: bool, before: seq<Step>, s: State, wait: seq<Step>, t: State, i: int)
    returns (k: int)
    requires Runs(Start(store, durable), before, s) && Runs(s, wait, t) && NothingRejected(before)
    requires t.executor.SawHeld? && t.executor.target == s.atomics.required && WaitNext(t.atomics, t.executor).Guarded?
    requires 0 <= i < |Enqueued(None, before)| && Enqueued(None, before)[i].state == Submitting
    ensures i <= k < |Enqueued(None, before + wait)|
    ensures t.store == Some(Enqueued(None, before + wait)[k]) && t.store.value.state == Submitting
  {
    var start := Start(store, durable);
    StartInv(store, durable);
    NumberedPrefix(start, before, s, wait, t);
    RunRequires(start, before, s);
    ClaimIsCovered(s, t);
    k := StoreCovers(Tags(start, before), Enqueued(None, before), s.history,
                     Tags(start, before + wait), Enqueued(None, before + wait), t, i);
  }

  /**
   After a rejection the required generation may be one that no record has.  If it is some record's, it is
   that of the newest submission placed.
   */
  lemma RequiredIsNewest(s: State)
    requires Reachable(s) && s.atomics.required in s.history.jobs
    ensures s.atomics.required == s.history.topSubmission && s.history.jobs[s.atomics.required].barrier
  {
    ReachableAnswers(s);
  }
}
