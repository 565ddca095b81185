/** What the settlement executor guarantees over whole runs, rebinds and restarts. */
module SettlementTheorems {
  import opened Common
  import P = RecoveryProtocol
  import I = RecoveryInvariant
  import T = RecoveryTheorems
  import opened SettlementExecutor
  import opened SettlementInvariant

  lemma BootInv(w: World)
    requires Booted(w)
    ensures Inv(w)
  {
    I.StartInv(w.protocol.store, w.protocol.atomics.durable);
  }

  lemma {:induction false} RunKeepsInv(w: World, steps: seq<Step>, v: World)
    requires Inv(w) && Runs(w, steps, v)
    ensures Inv(v)
    decreases |steps|
  {
    if steps != [] {
      StepKeepsInv(w, steps[0]);
      RunKeepsInv(Apply(w, steps[0]), steps[1..], v);
    }
  }

  /** The invariant holds in every reachable world: every interleaving, answer and restart. */
  lemma ReachableInv(w: World)
    requires Reachable(w)
    ensures Inv(w)
  {
    var boot, steps :| Booted(boot) && Runs(boot, steps, w);
    BootInv(boot);
    RunKeepsInv(boot, steps, w);
  }

  /** Everything that ever happens is allowed by what happened before it. */
  lemma ReachableAllowed(w: World)
    requires Reachable(w)
    ensures LogAllowed(w.log, w.authority)
  {
    ReachableInv(w);
  }

  lemma AllowedAt(w: World, i: int)
    requires Reachable(w) && 0 <= i < |w.log|
    ensures Allowed(Track(w.log[..i]), w.log[i], w.authority)
  {
    ReachableAllowed(w);
  }

  // ------------------------------------------------------ persist before broadcast

  /** The submit port is called only with the same identity and draft durably Submitting. */
  lemma PersistBeforeBroadcast(w: World)
    requires Reachable(w) && w.pc.Broadcasting?
    ensures w.protocol.store == Some(P.Record(w.pc.identity, P.Submitting, Some(w.pc.draft)))
    ensures w.protocol.atomics.held != 0 && w.protocol.executor == P.Guarded(w.protocol.atomics.held)
  {
    ReachableInv(w);
  }

  /** Everything other threads can do while the operation stays where it is. */
  predicate ByOthers(steps: seq<Step>) {
    forall i :: 0 <= i < |steps| ==>
      steps[i].Background? || steps[i].Select? || steps[i].Stage? || steps[i].Unstage?
  }

  lemma OtherKeepsRecord(w: World, a: Step, u: World)
    requires Inv(w) && w.pc.Broadcasting? && Enabled(w, a) && ByOthers([a]) && u == Apply(w, a)
    ensures u.pc == w.pc && u.protocol.store == w.protocol.store
  {
    assert [a][0] == a;
    if a.Background? {
      T.HoldFreezesStore(w.protocol, a.step);
    }
  }

  lemma {:induction false} FirstOfRun(w: World, steps: seq<Step>, v: World) returns (u: World)
    requires steps != [] && Runs(w, steps, v)
    ensures Enabled(w, steps[0]) && u == Apply(w, steps[0]) && Runs(u, steps[1..], v)
  {
    u := Apply(w, steps[0]);
  }

  /** While the call is outstanding nothing any other thread does changes the stored record. */
  lemma {:induction false} BroadcastKeepsRecord(w: World, steps: seq<Step>, v: World)
    requires Inv(w) && w.pc.Broadcasting? && Runs(w, steps, v) && ByOthers(steps)
    ensures v.pc == w.pc && v.protocol.store == w.protocol.store
    decreases |steps|
  {
    if steps != [] {
      var u := FirstOfRun(w, steps, v);
      OtherKeepsRecord(w, steps[0], u);
      StepKeepsInv(w, steps[0]);
      BroadcastKeepsRecord(u, steps[1..], v);
    }
  }

  // -------------------------------------------------------- reading the tracker

  predicate Resets(e: Event) { e.Rebound? || e.Restarted? }

  /** An event that leaves no draft behind: a rebind that no operation carries one through, or a restart. */
  predicate Empties(e: Event) { e == Rebound(false) || e.Restarted? }

  /** Event `k` settles the last broadcast: a definite answer, or a cancellation of the last draft prepared. */
  predicate Settles(log: seq<Event>, k: int)
    requires 0 <= k < |log|
  {
    Definite(log[k]) || (Cancels(log[k]) && ShownIs(Track(log[..k]), log[k].draft))
  }

  /** Event `k` is the last prepare before event `n`, nothing emptied the preview since, and its draft is `d`. */
  predicate LastPrepared(log: seq<Event>, k: int, n: int, d: string) {
    && 0 <= k < n <= |log| && Prepares(log[k]) && log[k].answer.preview.draft == d
    && forall i :: k < i < n ==> !Prepares(log[i]) && !Empties(log[i])
  }

  lemma TrackNext(log: seq<Event>, n: int)
    requires 0 <= n < |log|
    ensures Track(log[..n + 1]) == Update(Track(log[..n]), log[n])
  {
    assert log[..n + 1][..n] == log[..n];
  }

  lemma {:induction false} StaysClean(log: seq<Event>, m: int, n: int)
    requires 0 <= m < n <= |log| && log[m].Marked?
    requires forall k :: m < k < n ==> !Resets(log[k])
    ensures Track(log[..n]).clean
    decreases n
  {
    TrackNext(log, n - 1);
    if n - 1 > m {
      StaysClean(log, m, n - 1);
    }
  }

  lemma {:induction false} StaysExposed(log: seq<Event>, m: int, i: int, n: int)
    requires 0 <= m < i < n <= |log| && log[m].Marked? && log[i].Broadcast?
    requires forall k :: m < k < n ==> !Resets(log[k])
    requires forall k :: i < k < n ==> !Settles(log, k)
    ensures Track(log[..n]).exposed
    decreases n
  {
    TrackNext(log, n - 1);
    StaysClean(log, m, n - 1);
    if n - 1 > i {
      StaysExposed(log, m, i, n - 1);
      assert !Settles(log, n - 1);
    }
  }

  lemma {:induction false} FindMark(log: seq<Event>, n: int) returns (m: int)
    requires 0 <= n <= |log| && Track(log[..n]).marked
    ensures 0 <= m < n && log[m].Marked?
    ensures forall k :: m < k < n ==> !log[k].Marked? && !log[k].Broadcast? && !Prepares(log[k])
  {
    assert n > 0;
    TrackNext(log, n - 1);
    if log[n - 1].Marked? {
      m := n - 1;
    } else {
      m := FindMark(log, n - 1);
    }
  }

  /** What one event does to the draft shown last. */
  lemma ShownNext(t: Tracker, e: Event, authority: Authority, d: string)
    requires Allowed(t, e, authority) && ShownIs(Update(t, e), d)
    ensures if Prepares(e) then e.answer.preview.draft == d else ShownIs(t, d) && !Empties(e)
  {
  }

  lemma {:induction false} FindPrepare(log: seq<Event>, authority: Authority, n: int, d: string) returns (k: int)
    requires LogAllowed(log, authority) && 0 <= n <= |log| && ShownIs(Track(log[..n]), d)
    ensures LastPrepared(log, k, n, d)
  {
    assert n > 0;
    TrackNext(log, n - 1);
    assert Allowed(Track(log[..n - 1]), log[n - 1], authority);
    ShownNext(Track(log[..n - 1]), log[n - 1], authority, d);
    if Prepares(log[n - 1]) {
      k := n - 1;
    } else {
      k := FindPrepare(log, authority, n - 1, d);
    }
  }

  /** Without a prepare in between, the last prepare before two moments is the same one. */
  lemma SameLastPrepare(log: seq<Event>, p: int, i: int, d: string, q: int, j: int, e: string)
    requires LastPrepared(log, p, i, d) && LastPrepared(log, q, j, e) && i <= j
    requires forall k :: i <= k < j ==> !Prepares(log[k])
    ensures p == q && d == e
  {
  }

  // ------------------------------------------------------------ no blind resubmission

  /**
   Between a broadcast and any later one there is a definite result, or an observed pre-broadcast cancellation of
   the draft last prepared by then, or the realm was rebound, or the process restarted, after the first broadcast
   was marked uncertain at `m`.
   */
  lemma SettledBetween(w: World, i: int, j: int) returns (m: int, k: int)
    requires Reachable(w) && 0 <= i < j < |w.log| && w.log[i].Broadcast? && w.log[j].Broadcast?
    ensures 0 <= m < i && w.log[m].Marked?
    ensures forall n :: m < n < i ==> !w.log[n].Marked? && !w.log[n].Broadcast? && !Prepares(w.log[n])
    ensures m < k < j && (Resets(w.log[k]) || (i < k && Settles(w.log, k)))
  {
    AllowedAt(w, i);
    AllowedAt(w, j);
    m := FindMark(w.log, i);
    if forall n :: m < n < j ==> !Resets(w.log[n]) && (i < n ==> !Settles(w.log, n)) {
      StaysExposed(w.log, m, i, j);
      assert false;
    }
    k :| m < k < j && (Resets(w.log[k]) || (i < k && Settles(w.log, k)));
  }

  lemma BroadcastIsLastPrepared(w: World, j: int) returns (k: int)
    requires Reachable(w) && 0 <= j < |w.log| && w.log[j].Broadcast?
    ensures LastPrepared(w.log, k, j, w.log[j].draft)
  {
    ReachableAllowed(w);
    AllowedAt(w, j);
    k := FindPrepare(w.log, w.authority, j, w.log[j].draft);
  }

  /** What settles, with no prepare since the broadcast, is about the broadcast draft. */
  lemma SettlesTheDraft(log: seq<Event>, authority: Authority, p: int, i: int, d: string, k: int)
    requires LogAllowed(log, authority) && LastPrepared(log, p, i, d) && i < k < |log| && !Prepares(log[i])
    requires forall n :: i < n < k ==> !Prepares(log[n])
    requires Settles(log, k)
    ensures log[k].draft == d
  {
    assert Allowed(Track(log[..k]), log[k], authority);
    var q := FindPrepare(log, authority, k, log[k].draft);
    SameLastPrepare(log, p, i, d, q, k, log[k].draft);
  }

  /**
   No blind resubmission: two broadcasts with no prepare in between send the same draft, and between them that very
   draft was definitely answered or seen cancelled, or a rebind landed on an operation carrying the draft after the
   first broadcast was marked uncertain.  Neither condition can go: module `SettlementRuns` exhibits both failures.
   */
  lemma NoBlindResubmission(w: World, i: int, j: int) returns (m: int, k: int)
    requires Reachable(w) && 0 <= i < j < |w.log| && w.log[i].Broadcast? && w.log[j].Broadcast?
    requires forall n :: i < n < j ==> !Prepares(w.log[n])
    ensures w.log[i].draft == w.log[j].draft
    ensures 0 <= m < i && w.log[m].Marked? && forall n :: m < n < i ==> !w.log[n].Marked? && !w.log[n].Broadcast?
    ensures m < k < j
    ensures || w.log[k] == Rebound(true)
            || (i < k && (Definite(w.log[k]) || Cancels(w.log[k])) && w.log[k].draft == w.log[i].draft)
  {
    m, k := SettledBetween(w, i, j);
    var p := BroadcastIsLastPrepared(w, i);
    var q := BroadcastIsLastPrepared(w, j);
    SameLastPrepare(w.log, p, i, w.log[i].draft, q, j, w.log[j].draft);
    assert p < m;
    if !Resets(w.log[k]) {
      ReachableAllowed(w);
      SettlesTheDraft(w.log, w.authority, p, i, w.log[i].draft, k);
    } else {
      assert !Empties(w.log[k]);
    }
  }

  // ------------------------------------------------------- what is broadcast is ready

  /** Event `k` showed the preview retained before event `n`. */
  predicate LastShown(log: seq<Event>, k: int, n: int) {
    && 0 <= k < n <= |log| && Shows(log[k])
    && forall i :: k < i < n ==> !Shows(log[i]) && !Empties(log[i])
  }

  lemma PreviewNext(t: Tracker, e: Event)
    requires Update(t, e).shown.Some?
    ensures if Shows(e) then Update(t, e).shown == Some(e.answer.preview)
            else Update(t, e).shown == t.shown && !Empties(e)
  {
  }

  lemma {:induction false} FindShown(log: seq<Event>, n: int) returns (k: int)
    requires 0 <= n <= |log| && Track(log[..n]).shown.Some?
    ensures LastShown(log, k, n) && Track(log[..n]).shown == Some(log[k].answer.preview)
  {
    assert n > 0;
    TrackNext(log, n - 1);
    PreviewNext(Track(log[..n - 1]), log[n - 1]);
    if Shows(log[n - 1]) {
      k := n - 1;
    } else {
      k := FindShown(log, n - 1);
    }
  }

  /**
   Every broadcast sends a draft that the port which last showed it called ready; under automatic authority that
   preview is moreover on the development network, and so is the realm.
   */
  lemma BroadcastIsReady(w: World, j: int) returns (k: int)
    requires Reachable(w) && 0 <= j < |w.log| && w.log[j].Broadcast?
    ensures LastShown(w.log, k, j)
    ensures w.log[k].answer.preview.draft == w.log[j].draft && w.log[k].answer.preview.ready
    ensures w.authority.AutomaticDevelopment? ==>
              w.log[j].identity.realm == "undeployed" && w.log[k].answer.preview.network == "undeployed"
  {
    AllowedAt(w, j);
    k := FindShown(w.log, j);
  }

  lemma AskedNext(t: Tracker, e: Event, d: string)
    requires Update(t, e).asked == Some(d)
    ensures if e.AuthorizeCalled? then e.draft == d
            else t.asked == Some(d) && !e.PrepareReturned? && !e.AuthorizeReturned? && !Empties(e)
  {
  }

  lemma {:induction false} FindAsked(log: seq<Event>, n: int, d: string) returns (a: int)
    requires 0 <= n <= |log| && Track(log[..n]).asked == Some(d)
    ensures 0 <= a < n && log[a].AuthorizeCalled? && log[a].draft == d
    ensures forall i :: a < i < n ==> !log[i].PrepareReturned? && !log[i].AuthorizeReturned? && !Empties(log[i])
  {
    assert n > 0;
    TrackNext(log, n - 1);
    AskedNext(Track(log[..n - 1]), log[n - 1], d);
    if log[n - 1].AuthorizeCalled? {
      a := n - 1;
    } else {
      a := FindAsked(log, n - 1, d);
    }
  }

  /** A preview that an authorisation showed was asked for since the last prepare. */
  lemma AuthorisedSincePrepare(w: World, p: int, k: int, d: string) returns (a: int)
    requires Reachable(w) && LastPrepared(w.log, p, k, d) && k < |w.log| && Authorises(w.log[k]) && w.log[k].draft == d
    ensures p < a < k && w.log[a].AuthorizeCalled? && w.log[a].draft == d
  {
    AllowedAt(w, k);
    a := FindAsked(w.log, k, d);
  }

  /**
   No broadcast without authorisation: unless the prepare or the submit port itself called the draft ready, its
   authorisation was asked for, at `a`, after it was last prepared, at `p`, and granted, at `k`, before it is
   broadcast; under explicit authority that used up a confirmation of its own, at `c`.
   */
  lemma BroadcastIsAuthorised(w: World, j: int) returns (p: int, a: int, k: int, c: int)
    requires Reachable(w) && 0 <= j < |w.log| && w.log[j].Broadcast?
    requires forall i :: 0 <= i < j && (Prepares(w.log[i]) || Submits(w.log[i])) ==> !w.log[i].answer.preview.ready
    ensures LastPrepared(w.log, p, j, w.log[j].draft)
    ensures p < a < k < j && w.log[a].AuthorizeCalled? && w.log[a].draft == w.log[j].draft
    ensures Authorises(w.log[k]) && w.log[k].draft == w.log[j].draft
    ensures w.authority.Explicit? ==>
              0 <= c < a && w.log[c] == Staged(true) && forall i :: c < i < a ==> !Decides(w.log[i])
  {
    k := BroadcastIsReady(w, j);
    p := BroadcastIsLastPrepared(w, j);
    assert p < k;
    a := AuthorisedSincePrepare(w, p, k, w.log[j].draft);
    c := 0;
    if w.authority.Explicit? {
      var q;
      c, q := AuthorisationIsConfirmed(w, a);
    }
  }

  /** Automatic authority asks to authorise only the preview shown last, for the undeployed realm and network. */
  lemma AutomaticIsDevelopment(w: World, j: int) returns (k: int)
    requires Reachable(w) && w.authority.AutomaticDevelopment?
    requires 0 <= j < |w.log| && w.log[j].AuthorizeCalled?
    ensures w.log[j].identity.realm == "undeployed"
    ensures LastShown(w.log, k, j) && w.log[k].answer.preview.draft == w.log[j].draft
    ensures w.log[k].answer.preview.network == "undeployed"
  {
    AllowedAt(w, j);
    k := FindShown(w.log, j);
  }

  // ---------------------------------------------------------------- restart safety

  /**
   Every broadcast sends the draft that the prepare port returned last, in the same process lifetime and with no
   rebind since but one that landed on an operation carrying a draft; a recovered record alone never leads to a
   broadcast.
   */
  lemma RestartSafety(w: World, j: int) returns (k: int)
    requires Reachable(w) && 0 <= j < |w.log| && w.log[j].Broadcast?
    ensures 0 <= k < j && Prepares(w.log[k]) && w.log[k].answer.preview.draft == w.log[j].draft
    ensures forall i :: k < i < j ==> !Prepares(w.log[i]) && !w.log[i].Restarted? && w.log[i] != Rebound(false)
    ensures w.authority.AutomaticDevelopment? ==> w.log[j].identity.realm == "undeployed"
  {
    AllowedAt(w, j);
    k := BroadcastIsLastPrepared(w, j);
  }

  predicate Undisturbed(log: seq<Event>, k: int, j: int)
    requires j <= |log|
  {
    forall i :: 0 <= k < i < j ==> !Resets(log[i])
  }

  /** Broadcast `j` sends what prepare `k` returned for the same identity, which was bound then and ever since. */
  predicate SameBinding(log: seq<Event>, k: int, j: int)
    requires 0 <= j < |log| && log[j].Broadcast?
  {
    && 0 <= k < j && Prepares(log[k]) && log[k].answer.preview.draft == log[j].draft
    && log[k].bound && log[k].identity == log[j].identity && Undisturbed(log, k, j)
  }

  /** The draft of broadcast `j` was prepared in the realm binding and the process it is broadcast in. */
  ghost predicate PreparedInBinding(log: seq<Event>, j: int)
    requires 0 <= j < |log| && log[j].Broadcast?
  {
    exists k :: SameBinding(log, k, j)
  }

  lemma {:induction false} StaysOwned(log: seq<Event>, authority: Authority, k: int, n: int)
    requires LogAllowed(log, authority)
    requires 0 <= k < n <= |log| && Prepares(log[k]) && log[k].bound && Undisturbed(log, k, n)
    ensures Track(log[..n]).owner == Some(log[k].identity)
    decreases n
  {
    TrackNext(log, n - 1);
    if n - 1 > k {
      StaysOwned(log, authority, k, n - 1);
      assert !Resets(log[n - 1]);
      assert Allowed(Track(log[..n - 1]), log[n - 1], authority);
    }
  }

  /** If an earlier prepare was in the binding of the broadcast, so was the last one. */
  lemma LastPrepareIsBound(log: seq<Event>, authority: Authority, k: int, last: int, j: int)
    requires LogAllowed(log, authority) && 0 <= j < |log| && log[j].Broadcast? && SameBinding(log, k, j)
    requires k <= last < j && Prepares(log[last])
    ensures log[last].bound && Undisturbed(log, last, j)
  {
    if k < last {
      assert Undisturbed(log, k, last);
      StaysOwned(log, authority, k, last);
      assert Allowed(Track(log[..last]), log[last], authority);
    }
  }

  /** A bound prepare that nothing disturbs is the one whose identity is broadcast. */
  lemma BoundPrepareIsSame(log: seq<Event>, authority: Authority, k: int, j: int)
    requires LogAllowed(log, authority) && 0 <= j < |log| && log[j].Broadcast?
    requires 0 <= k < j && Prepares(log[k]) && log[k].answer.preview.draft == log[j].draft
    requires log[k].bound && Undisturbed(log, k, j)
    ensures SameBinding(log, k, j)
  {
    StaysOwned(log, authority, k, j);
    assert Allowed(Track(log[..j]), log[j], authority);
  }

  /**
   A broadcast is made in the binding its draft was prepared in exactly when the last prepare, `k`, returned with its
   identity still bound and no rebind has landed on an operation carrying a draft since.
   */
  lemma BindingSafetyIff(w: World, j: int) returns (k: int)
    requires Reachable(w) && 0 <= j < |w.log| && w.log[j].Broadcast?
    ensures LastPrepared(w.log, k, j, w.log[j].draft)
    ensures PreparedInBinding(w.log, j) <==> w.log[k].bound && forall i :: k < i < j ==> w.log[i] != Rebound(true)
  {
    k := BroadcastIsLastPrepared(w, j);
    ReachableAllowed(w);
    if PreparedInBinding(w.log, j) {
      var k' :| SameBinding(w.log, k', j);
      LastPrepareIsBound(w.log, w.authority, k', k, j);
      assert forall i :: k < i < j ==> !Resets(w.log[i]);
    } else if w.log[k].bound && forall i :: k < i < j ==> w.log[i] != Rebound(true) {
      BoundPrepareIsSame(w.log, w.authority, k, j);
    }
  }

  // -------------------------------------------------------- revisions and consent

  /** The observation revision never overtakes the operation revision. */
  lemma RevisionsOrdered(w: World)
    requires Reachable(w)
    ensures 0 <= w.retained.chainRevision <= w.retained.operationRevision <= MAX_U64
  {
    ReachableInv(w);
  }

  /** A refresh completion is strictly newer than the observation it names, unless that one is saturated. */
  lemma RefreshIsNewer(w: World, i: int)
    requires Reachable(w) && 0 <= i < |w.log| && w.log[i].DustRefreshed?
    ensures 0 < w.log[i].after <= w.log[i].revision
    ensures w.log[i].after < w.log[i].revision <==> w.log[i].after < MAX_U64
  {
    AllowedAt(w, i);
  }

  /** An event that settles what the last confirmation is worth. */
  predicate Decides(e: Event) {
    e.Staged? || e.Unstaged? || e.AuthorizeCalled? || Resets(e)
  }

  lemma ConsentNext(t: Tracker, e: Event)
    requires Update(t, e).consent
    ensures e == Staged(true) || (t.consent && !Decides(e))
  {
  }

  lemma {:induction false} FindConsent(log: seq<Event>, n: int) returns (k: int)
    requires 0 <= n <= |log| && Track(log[..n]).consent
    ensures 0 <= k < n && log[k] == Staged(true) && forall i :: k < i < n ==> !Decides(log[i])
  {
    assert n > 0;
    TrackNext(log, n - 1);
    ConsentNext(Track(log[..n - 1]), log[n - 1]);
    if log[n - 1].Staged? {
      k := n - 1;
    } else {
      k := FindConsent(log, n - 1);
    }
  }

  /**
   Under explicit authority each authorisation request uses up its own affirmative confirmation, `k`: in between
   nothing else was decided, withdrawn or authorised, and neither a rebind nor a restart came.  The draft authorised
   is the one last prepared, at `p`; it was the retained one when the decision was made exactly when nothing was
   prepared after the decision.
   */
  lemma AuthorisationIsConfirmed(w: World, j: int) returns (k: int, p: int)
    requires Reachable(w) && w.authority.Explicit? && 0 <= j < |w.log| && w.log[j].AuthorizeCalled?
    ensures 0 <= k < j && w.log[k] == Staged(true) && forall i :: k < i < j ==> !Decides(w.log[i])
    ensures LastPrepared(w.log, p, j, w.log[j].draft)
    ensures LastPrepared(w.log, p, k, w.log[j].draft) <==> forall i :: k < i < j ==> !Prepares(w.log[i])
  {
    ReachableAllowed(w);
    AllowedAt(w, j);
    k := FindConsent(w.log, j);
    p := FindPrepare(w.log, w.authority, j, w.log[j].draft);
    assert p != k;
  }

  predicate AsksAuthority(e: Event) { e.AuthorizeCalled? }

  predicate Confirms(e: Event) { e == Staged(true) }

  function Count(log: seq<Event>, kind: Event -> bool): nat {
    if log == [] then 0 else Count(log[..|log| - 1], kind) + if kind(log[|log| - 1]) then 1 else 0
  }

  lemma {:induction false} ConsentCounts(log: seq<Event>, authority: Authority)
    requires LogAllowed(log, authority) && authority.Explicit?
    ensures Count(log, AsksAuthority) + (if Track(log).consent then 1 else 0) <= Count(log, Confirms)
  {
    if log != [] {
      var front := log[..|log| - 1];
      assert forall i :: 0 <= i < |front| ==> front[..i] == log[..i];
      ConsentCounts(front, authority);
      assert Allowed(Track(front), log[|log| - 1], authority);
    }
  }

  /** So authorisation requests never outnumber affirmative confirmations. */
  lemma AuthorisationsAreConfirmed(w: World)
    requires Reachable(w) && w.authority.Explicit?
    ensures Count(w.log, AsksAuthority) <= Count(w.log, Confirms)
  {
    ReachableAllowed(w);
    ConsentCounts(w.log, w.authority);
  }
}
