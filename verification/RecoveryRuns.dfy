/** Runs of the callers and the worker: a Submitting record is enqueued, saved and held. */
module RecoveryRuns {
  import opened Common
  import opened RecoveryProtocol
  import opened RecoveryTheorems

  predicate Background(steps: seq<Step>) {
    forall i :: 0 <= i < |steps| ==> !steps[i].Execute?
  }

  /** Callers and the worker, without the executor, can take `s` to `t`. */
  ghost predicate Leads(s: State, t: State) {
    exists steps :: Background(steps) && Runs(s, steps, t)
  }

  lemma LeadsNowhere(s: State)
    ensures Leads(s, s)
  {
    assert Background([]) && Runs(s, [], s);
  }

  lemma LeadsOn(s: State, t: State, a: Step)
    requires Leads(s, t) && Enabled(t, a) && !a.Execute?
    ensures Leads(s, Apply(t, a))
  {
    var steps :| Background(steps) && Runs(s, steps, t);
    assert [a][1..] == [] && Runs(Apply(t, a), [], Apply(t, a));
    assert Runs(t, [a], Apply(t, a));
    RunsJoin(s, steps, t, [a], Apply(t, a));
    assert Background(steps + [a]);
  }

  lemma LeadsJoin(s: State, t: State, u: State)
    requires Leads(s, t) && Leads(t, u)
    ensures Leads(s, u)
  {
    var a :| Background(a) && Runs(s, a, t);
    var b :| Background(b) && Runs(t, b, u);
    RunsJoin(s, a, t, b, u);
    assert Background(a + b);
  }

  // ------------------------------------------------------------- a submission, from rest to held

  /** Nothing is pending, owed or held, and the worker waits for a token. */
  predicate Calm(s: State) {
    && s.pending == Pending(None, None) && s.enqueuer.Unlocked? && s.channel.owed == 0
    && s.worker.Receiving? && s.executor.Idle?
    && s.atomics.held == 0 && 0 <= s.atomics.next && s.atomics.persisted <= s.atomics.next
    && s.atomics.released <= s.atomics.next
  }

  /** As calm, but `record` has just been saved and is held for an operation to claim. */
  predicate Holding(s: State, record: Record) {
    && s.pending == Pending(None, None) && s.enqueuer.Unlocked? && s.channel.owed == 0
    && s.worker.Receiving? && s.executor.Idle? && s.store == Some(record)
    && s.atomics.durable && s.atomics.required == s.atomics.held == s.atomics.next > 0
    && s.atomics.persisted <= s.atomics.next && s.atomics.released < s.atomics.held
  }

  function Enqueued(s: State, job: Job): State {
    s.(pending := Pending(None, Some(job)), channel := Channel(0, true),
       atomics := s.atomics.(next := job.generation, required := job.generation, durable := false),
       history := Placed(s.history, job, None))
  }

  lemma EnqueueRun(s: State, record: Record)
    requires Calm(s) && record.state == Submitting
    ensures Leads(s, Enqueued(s, NewJob(s, record)))
  {
    var job := NewJob(s, record);
    var a := s.atomics.(next := job.generation);
    LeadsNowhere(s);
    LeadsOn(s, s, Caller(Lock(record)));
    var s1 := s.(atomics := a, enqueuer := Allocated(job));
    LeadsOn(s, s1, Caller(Announce));
    var s2 := s.(atomics := a.(required := job.generation), enqueuer := Announced(job));
    LeadsOn(s, s2, Caller(Clear));
    var s3 := s.(atomics := a.(required := job.generation, durable := false), enqueuer := Cleared(job));
    LeadsOn(s, s3, Caller(Place));
    var s4 := Enqueued(s, job).(channel := s.channel.(owed := 1));
    LeadsOn(s, s4, Caller(Send));
  }

  function Persisted(s: State, job: Job): State {
    s.(pending := Pending(None, None), channel := Channel(0, false), worker := Saved(job),
       store := Some(job.record), history := Keep(s.history, job.generation))
  }

  lemma SaveRun(s: State, job: Job)
    requires s.pending == Pending(None, Some(job)) && s.enqueuer.Unlocked? && s.channel == Channel(0, true)
    requires s.worker.Receiving? && s.atomics.held == 0 && s.atomics.persisted < job.generation
    ensures Leads(s, Persisted(s, job))
  {
    var t := s.(channel := Channel(0, false));
    LeadsNowhere(s);
    LeadsOn(s, s, Work(true));
    LeadsOn(s, t.(worker := CheckHeld), Work(true));
    LeadsOn(s, t.(worker := Take), Work(true));
    LeadsOn(s, t.(pending := Pending(None, None), worker := Compare(job)), Work(true));
    LeadsOn(s, t.(pending := Pending(None, None), worker := Saving(job)), Work(true));
  }

  /** The atomics once the worker has published and announced the hold. */
  function Published(a: Atomics, g: int): Atomics {
    a.(persisted := g, persistedSubmission := Max(a.persistedSubmission, g), durable := true)
  }

  lemma PublishRun(s: State, job: Job)
    requires s.worker == Saved(job) && job.barrier
    ensures Leads(s, s.(worker := Hold(job), atomics := Published(s.atomics, job.generation)))
  {
    var a := s.atomics.(persisted := job.generation);
    LeadsNowhere(s);
    LeadsOn(s, s, Work(true));
    LeadsOn(s, s.(atomics := a, worker := Counted(job)), Work(true));
    var b := a.(persistedSubmission := Max(a.persistedSubmission, job.generation));
    LeadsOn(s, s.(atomics := b, worker := SetDurable(job, true)), Work(true));
  }

  lemma HoldRun(s: State, job: Job)
    requires s.worker == Hold(job) && s.atomics.released < job.generation
    ensures Leads(s, s.(worker := Receiving,
                        atomics := s.atomics.(held := job.generation, notifications := s.atomics.notifications + 1)))
  {
    var a := s.atomics.(held := job.generation);
    LeadsNowhere(s);
    LeadsOn(s, s, Work(true));
    LeadsOn(s, s.(atomics := a, worker := NotifyHeld(job)), Work(true));
    var b := a.(notifications := a.notifications + 1);
    LeadsOn(s, s.(atomics := b, worker := CheckReleased(job)), Work(true));
  }

  /** From rest, a Submitting record can always be enqueued, saved and held. */
  lemma HeldRun(s: State, record: Record) returns (t: State)
    requires Calm(s) && record.state == Submitting
    ensures Leads(s, t) && Holding(t, record) && t.rejects == s.rejects
  {
    var job := NewJob(s, record);
    EnqueueRun(s, record);
    var s1 := Enqueued(s, job);
    SaveRun(s1, job);
    var s2 := Persisted(s1, job);
    LeadsJoin(s, s1, s2);
    PublishRun(s2, job);
    var s3 := s2.(worker := Hold(job), atomics := Published(s2.atomics, job.generation));
    LeadsJoin(s, s2, s3);
    HoldRun(s3, job);
    t := s3.(worker := Receiving,
             atomics := s3.atomics.(held := job.generation, notifications := s3.atomics.notifications + 1));
    LeadsJoin(s, s3, t);
  }
}
