/**
 The DUST recovery-persistence protocol as a transition system.

 Any number of callers enqueue or reject records, one worker thread saves them and
 at most one executor operation waits for, claims and releases a submission
 checkpoint.  Every load, store or read-modify-write of a shared atomic, every
 critical section and every channel operation is one step, so a run is an arbitrary
 interleaving of the threads.
 */
module RecoveryProtocol {
  import opened Common

  datatype Identity = Identity(profile: string, realm: string, generation: int)

  datatype SettlementState =
    | Unavailable | NotEligible | ActionRequired | AwaitingAuthorization | Submitting | Confirming
    | Reconciling | Ready | Cancelled | Offline | TimedOut | Degraded | Suspended

  /** The part of a recovery record that persistence and the executor look at. */
  datatype Record = Record(identity: Identity, state: SettlementState, draft: Option<string>)

  datatype Job = Job(generation: int, barrier: bool, record: Record)

  /** Who holds the mailbox lock, and how far that `enqueue` call has come. */
  datatype Enqueuer =
    | Unlocked
    | Allocated(job: Job)   // generation taken, announcement outstanding
    | Announced(job: Job)   // `required` or `latest` generation stored
    | Cleared(job: Job)     // `durable` cleared as well (submission jobs only)

  /** A `reject_current` call, by the action it is about to perform. */
  datatype RejectStage = StoreRequired | ClearDurable | StoreFailed | NotifyRejected
  datatype Reject = Reject(stage: RejectStage, generation: int)

  /** The worker's program counter; each value is one pending atomic action. */
  datatype Worker =
    | Receiving                          // blocked in `recv`
    | CheckHeld
    | Take
    | Compare(job: Job)
    | SkipStale(job: Job)
    | Saving(job: Job)
    | Saved(job: Job)
    | Counted(job: Job)
    | SaveFailed(job: Job)
    | SetDurable(job: Job, durable: bool)
    | Hold(job: Job)
    | NotifyHeld(job: Job)
    | CheckReleased(job: Job)
    | Unhold(job: Job)
    | Notify

  /** The executor's program counter inside `await_submission` and the guard. */
  datatype Executor =
    | Idle
    | LoadTarget
    | Polling(target: int)
    | Subscribed(target: int, seen: int)
    | SawHeld(target: int, seen: int, held: int)
    | CheckFailed(target: int, seen: int)
    | Parked(target: int, seen: int)
    | Guarded(generation: int)
    | Releasing(generation: int)
    | ReleaseLoad(released: int)
    | ReleaseSwap(released: int, observed: int)
    | ReleaseSend

  /** The lock-guarded two-slot mailbox. */
  datatype Pending = Pending(latest: Option<Job>, submission: Option<Job>)

  /** The one-token wake channel; `owed` counts enqueue calls that still have to send. */
  datatype Channel = Channel(owed: int, token: bool)

  /** The shared atomics; `notifications` counts `notify_waiters` calls. */
  datatype Atomics = Atomics(
    next: int,
    persisted: int,
    latest: int,
    persistedLatest: int,
    failedLatest: int,
    required: int,
    persistedSubmission: int,
    failedSubmission: int,
    held: int,
    released: int,
    durable: bool,
    notifications: int)

  /** History variables: what was placed in the mailbox and what became of it. */
  datatype History = History(
    initial: Option<Record>,
    jobs: map<int, Job>,
    topLatest: int,          // newest ordinary record placed
    topSubmission: int,      // newest submission record placed
    saved: seq<int>,         // generations saved, in order
    failed: set<int>,
    replaced: set<int>,
    skipped: set<int>)

  datatype State = State(
    pending: Pending,
    enqueuer: Enqueuer,
    channel: Channel,
    atomics: Atomics,
    rejects: set<Reject>,
    worker: Worker,
    executor: Executor,
    store: Option<Record>,
    history: History)

  function Start(store: Option<Record>, durable: bool): State {
    State(Pending(None, None), Unlocked, Channel(0, false),
          Atomics(0, 0, 0, 0, 0, 0, 0, 0, 0, 0, durable, 0),
          {}, Receiving, Idle, store,
          History(store, map[], 0, 0, [], {}, {}, {}))
  }

  function Max(a: int, b: int): int {
    if a >= b then a else b
  }

  /** Generation of the stored record; 0 stands for the record found at start-up. */
  function StoreGeneration(h: History): int {
    if h.saved == [] then 0 else h.saved[|h.saved| - 1]
  }

  function Newest(h: History, barrier: bool): int {
    if barrier then h.topSubmission else h.topLatest
  }

  /** Generation of the newest record placed. */
  function Top(h: History): int {
    Max(h.topLatest, h.topSubmission)
  }

  // ---------------------------------------------------------------- callers

  datatype CallerStep =
    | Lock(record: Record)
    | Announce
    | Clear
    | Place
    | Send
    | RejectAllocate
    | RejectNext(reject: Reject)

  predicate CallerEnabled(s: State, c: CallerStep) {
    var e := s.enqueuer;
    match c
    case Lock(_) => e.Unlocked?
    case Announce => e.Allocated?
    case Clear => e.Announced? && e.job.barrier
    case Place => e.Cleared? || (e.Announced? && !e.job.barrier)
    case Send => s.channel.owed > 0
    case RejectAllocate => true
    case RejectNext(r) => r in s.rejects
  }

  function NewJob(s: State, record: Record): Job {
    Job(s.atomics.next + 1, record.state == Submitting, record)
  }

  function AnnounceJob(s: State, job: Job): State {
    s.(enqueuer := Announced(job),
       atomics := if job.barrier then s.atomics.(required := job.generation)
                  else s.atomics.(latest := job.generation))
  }

  function Placed(h: History, job: Job, prior: Option<Job>): History {
    h.(jobs := h.jobs[job.generation := job],
       topLatest := if job.barrier then h.topLatest else job.generation,
       topSubmission := if job.barrier then job.generation else h.topSubmission,
       replaced := if prior.Some? then h.replaced + {prior.value.generation} else h.replaced)
  }

  function Slot(p: Pending, barrier: bool): Option<Job> {
    if barrier then p.submission else p.latest
  }

  function Deposit(p: Pending, job: Job): Pending {
    if job.barrier then p.(submission := Some(job)) else p.(latest := Some(job))
  }

  function PlaceJob(s: State, job: Job): State {
    s.(pending := Deposit(s.pending, job),
       enqueuer := Unlocked,
       channel := s.channel.(owed := s.channel.owed + 1),
       history := Placed(s.history, job, Slot(s.pending, job.barrier)))
  }

  function RejectApply(s: State, r: Reject): State {
    var a := s.atomics;
    var rest := s.rejects - {r};
    match r.stage
    case StoreRequired =>
      s.(atomics := a.(required := r.generation), rejects := rest + {Reject(ClearDurable, r.generation)})
    case ClearDurable =>
      s.(atomics := a.(durable := false), rejects := rest + {Reject(StoreFailed, r.generation)})
    case StoreFailed =>
      s.(atomics := a.(failedSubmission := Max(a.failedSubmission, r.generation)),
         rejects := rest + {Reject(NotifyRejected, r.generation)})
    case NotifyRejected =>
      s.(atomics := a.(notifications := a.notifications + 1), rejects := rest)
  }

  function CallerApply(s: State, c: CallerStep): State
    requires CallerEnabled(s, c)
  {
    var a := s.atomics;
    match c
    case Lock(record) => s.(atomics := a.(next := a.next + 1), enqueuer := Allocated(NewJob(s, record)))
    case Announce => AnnounceJob(s, s.enqueuer.job)
    case Clear => s.(atomics := a.(durable := false), enqueuer := Cleared(s.enqueuer.job))
    case Place => PlaceJob(s, s.enqueuer.job)
    case Send => s.(channel := Channel(s.channel.owed - 1, true))
    case RejectAllocate =>
      s.(atomics := a.(next := a.next + 1), rejects := s.rejects + {Reject(StoreRequired, a.next + 1)})
    case RejectNext(r) => RejectApply(s, r)
  }

  // ----------------------------------------------------------------- worker

  predicate WorkerEnabled(s: State) {
    && (s.worker.Receiving? ==> s.channel.token)
    && (s.worker.Take? ==> s.enqueuer.Unlocked?)
  }

  function TakeJob(s: State): State {
    var p := s.pending;
    if p.submission.Some? then s.(pending := p.(submission := None), worker := Compare(p.submission.value))
    else if p.latest.Some? then s.(pending := p.(latest := None), worker := Compare(p.latest.value))
    else s.(worker := Receiving)
  }

  function Skip(h: History, g: int): History { h.(skipped := h.skipped + {g}) }

  function Keep(h: History, g: int): History { h.(saved := h.saved + [g]) }

  function Fail(h: History, g: int): History { h.(failed := h.failed + {g}) }

  function CompareJob(s: State, job: Job): State {
    if s.atomics.persisted >= job.generation
    then s.(worker := SkipStale(job), history := Skip(s.history, job.generation))
    else s.(worker := Saving(job))
  }

  function SaveJob(s: State, job: Job, ok: bool): State {
    if ok then s.(store := Some(job.record), worker := Saved(job), history := Keep(s.history, job.generation))
    else s.(worker := SaveFailed(job), history := Fail(s.history, job.generation))
  }

  function PublishJob(s: State): State
    requires s.worker.SkipStale? || s.worker.Saved? || s.worker.Counted? || s.worker.SaveFailed?
  {
    var a := s.atomics;
    var job := s.worker.job;
    match s.worker
    case Saved(_) => s.(atomics := a.(persisted := job.generation), worker := Counted(job))
    case SaveFailed(_) =>
      if job.barrier
      then s.(atomics := a.(failedSubmission := Max(a.failedSubmission, job.generation)),
              worker := SetDurable(job, false))
      else s.(atomics := a.(failedLatest := Max(a.failedLatest, job.generation)), worker := Notify)
    case _ =>
      if job.barrier
      then s.(atomics := a.(persistedSubmission := Max(a.persistedSubmission, job.generation)),
              worker := if s.worker.Counted? then SetDurable(job, true) else Notify)
      else s.(atomics := a.(persistedLatest := Max(a.persistedLatest, job.generation)), worker := Notify)
  }

  function HoldJob(s: State): State
    requires s.worker.SetDurable? || s.worker.Hold? || s.worker.NotifyHeld? || s.worker.CheckReleased?
             || s.worker.Unhold?
  {
    var a := s.atomics;
    match s.worker
    case SetDurable(job, d) => s.(atomics := a.(durable := d), worker := if d then Hold(job) else Notify)
    case Hold(job) => s.(atomics := a.(held := job.generation), worker := NotifyHeld(job))
    case NotifyHeld(job) => s.(atomics := a.(notifications := a.notifications + 1), worker := CheckReleased(job))
    case CheckReleased(job) => s.(worker := if a.released >= job.generation then Unhold(job) else Receiving)
    case Unhold(_) => s.(atomics := a.(held := 0), worker := CheckHeld)
  }

  /** One action of the worker loop; `ok` is the store's answer when it is saving. */
  function WorkerApply(s: State, ok: bool): State {
    match s.worker
    case Receiving => s.(channel := s.channel.(token := false), worker := CheckHeld)
    case CheckHeld => s.(worker := if s.atomics.held != 0 then Receiving else Take)
    case Take => TakeJob(s)
    case Compare(job) => CompareJob(s, job)
    case Saving(job) => SaveJob(s, job, ok)
    case Notify => s.(atomics := s.atomics.(notifications := s.atomics.notifications + 1), worker := CheckHeld)
    case SkipStale(_) => PublishJob(s)
    case Saved(_) => PublishJob(s)
    case Counted(_) => PublishJob(s)
    case SaveFailed(_) => PublishJob(s)
    case _ => HoldJob(s)
  }

  // --------------------------------------------------------------- executor

  datatype ExecutorStep = Begin | Advance | Drop

  /**
   `Begin` enters `await_submission`.  `Drop` abandons the future at its suspension
   point, or ends the guarded section, which always drops the guard.
   */
  predicate ExecutorEnabled(s: State, x: ExecutorStep) {
    match x
    case Begin => s.executor.Idle?
    case Advance =>
      && !s.executor.Idle? && !s.executor.Guarded?
      && (s.executor.Parked? ==> s.atomics.notifications > s.executor.seen)
    case Drop => s.executor.Parked? || s.executor.Guarded?
  }

  /** One action of `await_submission`. */
  function WaitNext(a: Atomics, x: Executor): Executor {
    match x
    case LoadTarget => if a.required == 0 then Idle else Polling(a.required)
    case Polling(t) => Subscribed(t, a.notifications)
    case Subscribed(t, n) => SawHeld(t, n, a.held)
    case SawHeld(t, n, h) => if a.durable && h >= t then Guarded(h) else CheckFailed(t, n)
    case CheckFailed(t, n) => if a.failedSubmission >= t then Idle else Parked(t, n)
    case Parked(t, n) => Polling(t)
    case _ => x
  }

  /** One action of `release_submission`. */
  function ReleaseNext(s: State): State {
    var a := s.atomics;
    match s.executor
    case Releasing(g) =>
      s.(atomics := a.(released := Max(a.released, g)), executor := ReleaseLoad(Max(a.released, g)))
    case ReleaseLoad(r) =>
      s.(executor := if a.held == 0 || a.held > r then Idle else ReleaseSwap(r, a.held))
    case ReleaseSwap(r, h) =>
      if a.held == h then s.(atomics := a.(held := 0), executor := ReleaseSend)
      else s.(executor := ReleaseLoad(r))
    case ReleaseSend => s.(channel := s.channel.(token := true), executor := Idle)
    case _ => s
  }

  predicate InRelease(x: Executor) {
    x.Releasing? || x.ReleaseLoad? || x.ReleaseSwap? || x.ReleaseSend?
  }

  function ExecutorApply(s: State, x: ExecutorStep): State {
    match x
    case Begin => s.(executor := LoadTarget)
    case Advance =>
      if InRelease(s.executor) then ReleaseNext(s) else s.(executor := WaitNext(s.atomics, s.executor))
    case Drop => s.(executor := if s.executor.Guarded? then Releasing(s.executor.generation) else Idle)
  }

  // ------------------------------------------------------------------- runs

  datatype Step = Caller(caller: CallerStep) | Work(ok: bool) | Execute(executor: ExecutorStep)

  predicate Enabled(s: State, a: Step) {
    match a
    case Caller(c) => CallerEnabled(s, c)
    case Work(_) => WorkerEnabled(s)
    case Execute(x) => ExecutorEnabled(s, x)
  }

  function Apply(s: State, a: Step): State
    requires Enabled(s, a)
  {
    match a
    case Caller(c) => CallerApply(s, c)
    case Work(ok) => WorkerApply(s, ok)
    case Execute(x) => ExecutorApply(s, x)
  }

  /** `steps` is a run of the protocol that leads from `s` to `t`. */
  predicate Runs(s: State, steps: seq<Step>, t: State)
    decreases |steps|
  {
    if steps == [] then s == t
    else Enabled(s, steps[0]) && Runs(Apply(s, steps[0]), steps[1..], t)
  }

  ghost predicate Reachable(s: State) {
    exists store, durable, steps :: Runs(Start(store, durable), steps, s)
  }
}
