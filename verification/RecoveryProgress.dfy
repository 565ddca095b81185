/** What the recovery-persistence threads still achieve: progress of the worker, and wake-ups of its observers. */
module RecoveryProgress {
  import opened RecoveryProtocol
  import opened RecoveryInvariant
  import opened RecoveryTheorems

  // ------------------------------------------------------------------------ the mailbox drains

  predicate OnlyWork(steps: seq<Step>) {
    forall i :: 0 <= i < |steps| ==> steps[i] == Work(true)
  }

  /** Worker actions alone, with a store that accepts, take `s` to `t`. */
  ghost predicate Works(s: State, t: State) {
    exists steps :: OnlyWork(steps) && Runs(s, steps, t)
  }

  /** The delivery of a token that a caller, or the operation that released a checkpoint, owes the worker. */
  predicate Delivers(s: State, a: Step) {
    Enabled(s, a) && (a == Caller(Send) || (a == Execute(Advance) && s.executor.ReleaseSend?))
  }

  /** Worker actions, after at most one such delivery, take `s` to `t`. */
  ghost predicate Drains(s: State, t: State) {
    Works(s, t) || exists a :: Delivers(s, a) && Works(Apply(s, a), t)
  }

  lemma WorksNowhere(s: State)
    ensures Works(s, s)
  {
    assert OnlyWork([]) && Runs(s, [], s);
  }

  lemma WorksAfter(s: State, t: State)
    requires WorkerEnabled(s) && Works(WorkerApply(s, true), t)
    ensures Works(s, t)
  {
    var steps :| OnlyWork(steps) && Runs(WorkerApply(s, true), steps, t);
    var all := [Work(true)] + steps;
    assert all[1..] == steps;
    assert OnlyWork(all) && Runs(s, all, t);
  }

  function Waiting(p: Pending): nat {
    (if p.latest.Some? then 1 else 0) + if p.submission.Some? then 1 else 0
  }

  /** How far the worker is from looking into the mailbox. */
  function Phase(w: Worker): nat {
    match w
    case Receiving => 13
    case Compare(_) => 12
    case Saving(_) => 11
    case SkipStale(_) => 10
    case Saved(_) => 10
    case SaveFailed(_) => 10
    case Counted(_) => 9
    case SetDurable(_, _) => 8
    case Hold(_) => 7
    case NotifyHeld(_) => 6
    case CheckReleased(_) => 5
    case Unhold(_) => 4
    case Notify => 3
    case CheckHeld => 2
    case Take => 1
  }

  function Distance(s: State): nat {
    20 * Waiting(s.pending) + Phase(s.worker)
  }

  /** The worker is at work, or has been sent the token that wakes it. */
  predicate Awake(s: State) {
    s.worker.Receiving? ==> s.channel.token
  }

  /** An awake worker stays awake until the mailbox is empty or a checkpoint is held, and gets nearer to that. */
  lemma WorkerDescends(s: State, t: State)
    requires s.atomics.held == 0 && s.enqueuer.Unlocked? && !Quiescent(s) && Awake(s)
    requires InvHold(s.atomics, s.worker, s.history) && t == WorkerApply(s, true)
    ensures t.atomics.held != 0 || Quiescent(t) || (t.enqueuer.Unlocked? && Awake(t) && Distance(t) < Distance(s))
  {
    if s.worker.SkipStale? || s.worker.Saved? || s.worker.Counted? || s.worker.SaveFailed? {
      assert t == PublishJob(s) && t.pending == s.pending;
    }
  }

  lemma {:induction false} AwakeDrains(s: State) returns (t: State)
    requires Inv(s) && s.atomics.held == 0 && s.enqueuer.Unlocked? && Awake(s)
    ensures Works(s, t) && (Quiescent(t) || t.atomics.held != 0)
    decreases Distance(s)
  {
    if Quiescent(s) {
      t := s;
      WorksNowhere(s);
    } else {
      var u := WorkerApply(s, true);
      StepKeepsInv(s, Work(true));
      WorkerDescends(s, u);
      if u.atomics.held != 0 || Quiescent(u) {
        t := u;
        WorksNowhere(u);
      } else {
        t := AwakeDrains(u);
      }
      WorksAfter(s, t);
    }
  }

  lemma TokenArrives(s: State) returns (a: Step)
    requires s.channel.owed > 0 || s.executor.ReleaseSend?
    ensures Delivers(s, a) && Apply(s, a).channel.token
    ensures Apply(s, a).atomics == s.atomics && Apply(s, a).enqueuer == s.enqueuer
  {
    a := if s.channel.owed > 0 then Caller(Send) else Execute(Advance);
  }

  /**
   Progress: from every reachable state with nothing held and the mailbox lock free, worker actions whose saves
   succeed, after at most the delivery of one owed token, empty the mailbox or hold a checkpoint.
   */
  lemma {:induction false} MailboxDrains(s: State) returns (t: State)
    requires Inv(s) && s.atomics.held == 0 && s.enqueuer.Unlocked?
    ensures Drains(s, t) && (Quiescent(t) || t.atomics.held != 0)
  {
    if Quiescent(s) {
      t := s;
      WorksNowhere(s);
    } else if Awake(s) {
      t := AwakeDrains(s);
    } else {
      var a := TokenArrives(s);
      StepKeepsInv(s, a);
      t := AwakeDrains(Apply(s, a));
    }
  }

  // ------------------------------------------------------------ observers of the latest record

  /** What lets `await_latest` return. */
  predicate LatestAnswerable(a: Atomics, target: int) {
    a.persistedLatest >= target || a.failedLatest >= target
  }

  /** Since notification `n` a wake-up has been sent, or the worker's next action sends one. */
  predicate Woken(s: State, n: int) {
    s.atomics.notifications > n || (s.atomics.notifications == n && s.worker.Notify?)
  }

  lemma StepWakes(s: State, a: Step, target: int, n: int)
    requires Enabled(s, a) && n <= s.atomics.notifications
    requires LatestAnswerable(s.atomics, target) ==> Woken(s, n)
    ensures
      var t := Apply(s, a);
      && n <= t.atomics.notifications
      && s.atomics.persistedLatest <= t.atomics.persistedLatest && s.atomics.failedLatest <= t.atomics.failedLatest
      && (LatestAnswerable(t.atomics, target) ==> Woken(t, n))
  {
  }

  lemma {:induction false} RunWakes(s: State, steps: seq<Step>, t: State, target: int, n: int)
    requires Runs(s, steps, t) && n <= s.atomics.notifications
    requires LatestAnswerable(s.atomics, target) ==> Woken(s, n)
    ensures n <= t.atomics.notifications && (LatestAnswerable(t.atomics, target) ==> Woken(t, n))
    ensures s.atomics.persistedLatest <= t.atomics.persistedLatest && s.atomics.failedLatest <= t.atomics.failedLatest
    decreases |steps|
  {
    if steps != [] {
      StepWakes(s, steps[0], target, n);
      RunWakes(Apply(s, steps[0]), steps[1..], t, target, n);
    }
  }

  /**
   No lost notification for the latest record: a caller of `await_latest` that subscribed in `s`, then saw neither
   answer in `u` and `v`, has been notified by the time `t` an answer is there, or the worker is about to notify it.
   */
  lemma {:induction false} LatestIsNotified(s: State, a: seq<Step>, u: State, b: seq<Step>, v: State,
                                            c: seq<Step>, t: State, target: int)
    requires Runs(s, a, u) && u.atomics.persistedLatest < target
    requires Runs(u, b, v) && v.atomics.failedLatest < target
    requires Runs(v, c, t) && LatestAnswerable(t.atomics, target)
    ensures Woken(t, s.atomics.notifications)
  {
    var n := s.atomics.notifications;
    var low := Max(s.atomics.persistedLatest, s.atomics.failedLatest) + 1;
    RunWakes(s, a, u, low, n);
    RunWakes(u, b, v, Max(u.atomics.persistedLatest, u.atomics.failedLatest) + 1, u.atomics.notifications);
    assert !LatestAnswerable(s.atomics, target);
    RunWakes(s, a, u, target, n);
    RunWakes(u, b, v, target, n);
    RunWakes(v, c, t, target, n);
  }
}
