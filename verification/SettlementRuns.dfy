/** Whole runs of the settlement executor that reach every gap its safety theorems leave. */
module SettlementRuns {
  import opened Common
  import P = RecoveryProtocol
  import R = RecoveryRuns
  import opened SettlementExecutor
  import opened SettlementInvariant
  import opened SettlementTheorems

  ghost predicate Leads(w: World, v: World) {
    exists steps :: Runs(w, steps, v)
  }

  lemma {:induction false} Join(w: World, steps: seq<Step>, u: World, more: seq<Step>, v: World)
    requires Runs(w, steps, u) && Runs(u, more, v)
    ensures Runs(w, steps + more, v)
    decreases |steps|
  {
    if steps == [] {
      assert steps + more == more;
    } else {
      Join(Apply(w, steps[0]), steps[1..], u, more, v);
      assert (steps + more)[1..] == steps[1..] + more;
    }
  }

  lemma LeadsNowhere(w: World)
    ensures Leads(w, w)
  {
    assert Runs(w, [], w);
  }

  lemma LeadsOn(w: World, u: World, a: Step, v: World)
    requires Leads(w, u) && Enabled(u, a) && v == Apply(u, a)
    ensures Leads(w, v)
  {
    var steps :| Runs(w, steps, u);
    assert [a][1..] == [] && Runs(v, [], v);
    assert Runs(u, [a], v);
    Join(w, steps, u, [a], v);
  }

  lemma LeadsJoin(w: World, u: World, v: World)
    requires Leads(w, u) && Leads(u, v)
    ensures Leads(w, v)
  {
    var a :| Runs(w, a, u);
    var b :| Runs(u, b, v);
    Join(w, a, u, b, v);
  }

  lemma LeadsReachable(w: World, v: World)
    requires Reachable(w) && Leads(w, v)
    ensures Reachable(v)
  {
    var boot, steps :| Booted(boot) && Runs(boot, steps, w);
    var more :| Runs(w, more, v);
    Join(boot, steps, w, more, v);
  }

  /** What callers and the worker do to the protocol they can do under any operation. */
  lemma {:induction false} BackgroundLeads(w: World, steps: seq<P.Step>, q: P.State)
    requires R.Background(steps) && P.Runs(w.protocol, steps, q)
    ensures Leads(w, w.(protocol := q))
    decreases |steps|
  {
    LeadsNowhere(w);
    if steps != [] {
      var u := w.(protocol := P.Apply(w.protocol, steps[0]));
      LeadsOn(w, w, Background(steps[0]), u);
      BackgroundLeads(u, steps[1..], q);
      LeadsJoin(w, u, w.(protocol := q));
    }
  }

  // ------------------------------------------------------------------------- stages of a run

  function SubmissionOf(id: Identity, d: string): P.Record {
    P.Record(id, P.Submitting, Some(d))
  }

  /** The prepare port answers with a draft that is not ready yet. */
  function PreparedFor(id: Identity, d: string, bound: bool): Event {
    PrepareReturned(id, Previewed(Preview(d, id.realm, false), true), bound)
  }

  /** The authorise port answers that the draft is ready. */
  function Granted(d: string, n: string): Event {
    AuthorizeReturned(d, Previewed(Preview(d, n, true), true))
  }

  /** A draft is prepared under the bound identity. */
  function Drafted(w: World, id: Identity, d: string): World {
    w.(retained := w.retained.(preview := Some(Preview(d, id.realm, false))), log := w.log + [PreparedFor(id, d, true)])
  }

  lemma PrepareRun(w: World, id: Identity, d: string)
    requires w.pc.Idle? && Admits(w.retained, id)
    ensures Leads(w, Drafted(w, id, d))
  {
    var w1 := w.(pc := Preparing(id));
    LeadsNowhere(w);
    LeadsOn(w, w, Start(Prepare(id)), w1);
    LeadsOn(w, w1, Proceed(Previewed(Preview(d, id.realm, false), true)), Drafted(w, id, d));
  }

  /** The retained draft is authorised on a confirmation already staged. */
  function Authorised(w: World, id: Identity, d: string, n: string): World {
    w.(retained := w.retained.(preview := Some(Preview(d, n, true)), confirmation := None),
       log := w.log + [AuthorizeCalled(id, d), Granted(d, n)])
  }

  lemma AuthoriseRun(w: World, id: Identity, d: string, n: string)
    requires w.pc.Idle? && w.authority.Explicit? && Admits(w.retained, id)
    requires w.retained.preview == Some(Preview(d, n, false)) && w.retained.confirmation == Some(true)
    ensures Leads(w, Authorised(w, id, d, n))
  {
    LeadsNowhere(w);
    var w1 := w.(pc := TakeConfirmation(id, d));
    LeadsOn(w, w, Start(Authorize(id, d)), w1);
    var w2 := Log(w.(pc := Authorizing(id, d), retained := w.retained.(confirmation := None)), AuthorizeCalled(id, d));
    LeadsOn(w, w1, Proceed(Go), w2);
    assert w2.log + [Granted(d, n)] == Authorised(w, id, d, n).log;
    LeadsOn(w, w2, Proceed(Previewed(Preview(d, n, true), true)), Authorised(w, id, d, n));
  }

  /** The retained draft is confirmed and authorised. */
  function Consented(w: World, id: Identity, d: string, n: string): World {
    w.(retained := w.retained.(preview := Some(Preview(d, n, true)), confirmation := None),
       log := w.log + [Staged(true), AuthorizeCalled(id, d), Granted(d, n)])
  }

  lemma ConsentRun(w: World, id: Identity, d: string, n: string)
    requires w.pc.Idle? && w.authority.Explicit? && Admits(w.retained, id)
    requires w.retained.preview == Some(Preview(d, n, false))
    ensures Leads(w, Consented(w, id, d, n))
  {
    var u := StageConfirmation(w, true);
    LeadsNowhere(w);
    LeadsOn(w, w, Stage(true), u);
    AuthoriseRun(u, id, d, n);
    assert Authorised(u, id, d, n).log == Consented(w, id, d, n).log;
    LeadsJoin(w, u, Authorised(u, id, d, n));
  }

  /** A held checkpoint is claimed by a submit operation, which reads its preview. */
  function Claimed(w: World, id: Identity, d: string): World {
    w.(protocol := w.protocol.(executor := P.Guarded(w.protocol.atomics.held)), pc := CheckPreview(id, d))
  }

  lemma ClaimRun(w: World, id: Identity, d: string)
    requires w.pc.Idle? && Admits(w.retained, id) && R.Holding(w.protocol, SubmissionOf(id, d))
    ensures Leads(w, Claimed(w, id, d))
  {
    var p, a := w.protocol, w.protocol.atomics;
    var u := w.(pc := Waiting(id, d));
    LeadsNowhere(w);
    var w1 := u.(protocol := p.(executor := P.LoadTarget));
    LeadsOn(w, w, Start(Submit(id, d)), w1);
    var w2 := u.(protocol := p.(executor := P.Polling(a.required)));
    LeadsOn(w, w1, Wait, w2);
    var w3 := u.(protocol := p.(executor := P.Subscribed(a.required, a.notifications)));
    LeadsOn(w, w2, Wait, w3);
    var w4 := u.(protocol := p.(executor := P.SawHeld(a.required, a.notifications, a.held)));
    LeadsOn(w, w3, Wait, w4);
    LeadsOn(w, w4, Wait, Claimed(w, id, d));
  }

  lemma LookRun(w: World, id: Identity, d: string, n: string)
    requires w.pc == CheckPreview(id, d) && w.retained.preview == Some(Preview(d, n, true))
    ensures Leads(w, w.(pc := CheckUncertain(id, d, n)))
  {
    LeadsNowhere(w);
    LeadsOn(w, w, Proceed(Go), w.(pc := ReadPreview(id, d)));
    LeadsOn(w, w.(pc := ReadPreview(id, d)), Proceed(Go), w.(pc := CheckUncertain(id, d, n)));
  }

  /** From a loaded record the explicit authority goes straight to the broadcast. */
  function Sent(w: World, id: Identity, d: string): World {
    w.(retained := w.retained.(uncertain := true), pc := Broadcasting(id, d),
       log := w.log + [Marked, Broadcast(id, d)])
  }

  lemma SendRun(w: World, id: Identity, d: string, n: string)
    requires w.pc == LoadRecord(id, d, n) && w.authority.Explicit? && DurablySubmitting(w.protocol.store, id, d)
    ensures Leads(w, Sent(w, id, d))
  {
    LeadsNowhere(w);
    LeadsOn(w, w, Proceed(Go), w.(pc := MarkUncertain(id, d, n)));
    var w2 := Log(w.(retained := w.retained.(uncertain := true), pc := CallSubmit(id, d, n)), Marked);
    LeadsOn(w, w.(pc := MarkUncertain(id, d, n)), Proceed(Go), w2);
    assert Sent(w, id, d).log == w2.log + [Broadcast(id, d)];
    LeadsOn(w, w2, Proceed(Go), Sent(w, id, d));
  }

  /** A submit call that times out. */
  function Lost(id: Identity, d: string): seq<Event> {
    [Marked, Broadcast(id, d), SubmitReturned(d, TimedOut)]
  }

  lemma LostIsExposed(log: seq<Event>, id: Identity, d: string)
    ensures Track(log + Lost(id, d)).exposed
  {
    var longer := log + Lost(id, d);
    TrackNext(longer, |log|);
    TrackNext(longer, |log| + 1);
    TrackNext(longer, |log| + 2);
    assert longer[..|log| + 3] == longer;
  }

  /** The call times out; the operation returns and the guard it drops releases the checkpoint. */
  function Released(p: P.State): P.State {
    p.(atomics := p.atomics.(released := p.atomics.held, held := 0), channel := p.channel.(token := true),
       executor := P.Idle)
  }

  lemma ReleaseRun(w: World, g: int)
    requires w.pc.Dropping? && w.protocol.executor == P.Releasing(g) && w.protocol.atomics.held == g != 0
    requires w.protocol.atomics.released < g
    ensures Leads(w, w.(pc := Idle, protocol := Released(w.protocol)))
  {
    var p := w.protocol;
    var a := p.atomics.(released := g);
    LeadsNowhere(w);
    var w2 := w.(protocol := p.(atomics := a, executor := P.ReleaseLoad(g)));
    LeadsOn(w, w, Wait, w2);
    var w3 := w.(protocol := p.(atomics := a, executor := P.ReleaseSwap(g, g)));
    LeadsOn(w, w2, Wait, w3);
    var w4 := w.(protocol := p.(atomics := a.(held := 0), executor := P.ReleaseSend));
    LeadsOn(w, w3, Wait, w4);
    LeadsOn(w, w4, Wait, w.(pc := Idle, protocol := Released(p)));
  }

  lemma TimeoutRun(w: World, v: World)
    requires w.pc.Broadcasting? && w.protocol.executor == P.Guarded(w.protocol.atomics.held)
    requires w.protocol.atomics.released < w.protocol.atomics.held && w.protocol.atomics.held != 0
    requires v == Log(w.(pc := Idle, protocol := Released(w.protocol)), SubmitReturned(w.pc.draft, TimedOut))
    ensures Leads(w, v)
  {
    var p, g := w.protocol, w.protocol.atomics.held;
    var w1 := Log(w.(pc := Dropping, protocol := p.(executor := P.Releasing(g))), SubmitReturned(w.pc.draft, TimedOut));
    LeadsNowhere(w);
    LeadsOn(w, w, Proceed(TimedOut), w1);
    ReleaseRun(w1, g);
    assert Released(w1.protocol) == Released(p);
    LeadsJoin(w, w1, v);
  }

  /** An idle world bound to `id`, with the protocol at rest. */
  predicate Resting(w: World, id: Identity) {
    w.pc.Idle? && w.authority.Explicit? && Admits(w.retained, id) && R.Calm(w.protocol)
  }

  /** A submit operation for an authorised draft reaches the check of the uncertainty mark. */
  predicate Checking(w: World, id: Identity, d: string, n: string) {
    && w.pc == CheckUncertain(id, d, n) && w.authority.Explicit? && Admits(w.retained, id)
    && DurablySubmitting(w.protocol.store, id, d)
    && w.protocol.executor == P.Guarded(w.protocol.atomics.held)
    && w.protocol.atomics.released < w.protocol.atomics.held == w.protocol.atomics.next
    && w.protocol.atomics.persisted <= w.protocol.atomics.next
    && w.protocol.pending == P.Pending(None, None) && w.protocol.enqueuer.Unlocked?
    && w.protocol.channel.owed == 0 && w.protocol.worker.Receiving? && w.protocol.atomics.held > 0
  }

  lemma HoldLeads(w: World, id: Identity, d: string) returns (v: World)
    requires Resting(w, id)
    ensures Leads(w, v) && v == w.(protocol := v.protocol) && R.Holding(v.protocol, SubmissionOf(id, d))
  {
    var q := R.HeldRun(w.protocol, SubmissionOf(id, d));
    var steps :| R.Background(steps) && P.Runs(w.protocol, steps, q);
    BackgroundLeads(w, steps, q);
    v := w.(protocol := q);
  }

  lemma CheckRun(w: World, id: Identity, d: string, n: string) returns (v: World)
    requires Resting(w, id) && w.retained.preview == Some(Preview(d, n, true))
    ensures Leads(w, v) && Checking(v, id, d, n) && v.retained == w.retained && v.log == w.log
  {
    var u := HoldLeads(w, id, d);
    ClaimRun(u, id, d);
    var c := Claimed(u, id, d);
    LeadsJoin(w, u, c);
    LookRun(c, id, d, n);
    v := c.(pc := CheckUncertain(id, d, n));
    LeadsJoin(w, c, v);
  }

  lemma ConsentAndCheckRun(w: World, id: Identity, d: string, n: string) returns (v: World)
    requires Resting(w, id) && w.retained.preview == Some(Preview(d, n, false))
    ensures Leads(w, v) && Checking(v, id, d, n)
    ensures v.retained == Consented(w, id, d, n).retained && v.log == Consented(w, id, d, n).log
  {
    ConsentRun(w, id, d, n);
    v := CheckRun(Consented(w, id, d, n), id, d, n);
    LeadsJoin(w, Consented(w, id, d, n), v);
  }

  /** What preparing, confirming and authorising a draft log. */
  function Authorisation(id: Identity, d: string): seq<Event> {
    [PreparedFor(id, d, true), Staged(true), AuthorizeCalled(id, d), Granted(d, id.realm)]
  }

  lemma PrepareAndCheckRun(w: World, id: Identity, d: string) returns (v: World)
    requires Resting(w, id)
    ensures Leads(w, v) && Checking(v, id, d, id.realm) && v.log == w.log + Authorisation(id, d)
    ensures v.retained == w.retained.(preview := Some(Preview(d, id.realm, true)), confirmation := None)
  {
    PrepareRun(w, id, d);
    v := ConsentAndCheckRun(Drafted(w, id, d), id, d, id.realm);
    LeadsJoin(w, Drafted(w, id, d), v);
  }

  /** With no mark set, the check goes on to the broadcast. */
  lemma FirstBroadcastRun(w: World, id: Identity, d: string, n: string) returns (v: World)
    requires Checking(w, id, d, n) && !w.retained.uncertain
    ensures Leads(w, v) && v == Sent(w, id, d)
  {
    var u := w.(pc := LoadRecord(id, d, n));
    LeadsNowhere(w);
    LeadsOn(w, w, Proceed(Go), u);
    SendRun(u, id, d, n);
    v := Sent(u, id, d);
    LeadsJoin(w, u, v);
  }

  /** The broadcast is made, times out, and the executor is at rest again, with the mark still set. */
  lemma LostBroadcastRun(w: World, id: Identity, d: string, n: string) returns (v: World)
    requires Checking(w, id, d, n) && !w.retained.uncertain
    ensures Leads(w, v) && Resting(v, id) && v.log == w.log + Lost(id, d)
    ensures v.retained == w.retained.(uncertain := true)
  {
    var x := FirstBroadcastRun(w, id, d, n);
    v := Log(x.(pc := Idle, protocol := Released(x.protocol)), SubmitReturned(d, TimedOut));
    TimeoutRun(x, v);
    LeadsJoin(w, x, v);
  }

  /** A process starts and binds `id`. */
  lemma BoundRun(s: Selected) returns (v: World)
    requires 0 <= s.revision <= MAX_U64
    ensures Reachable(v) && Resting(v, IdentityOf(s)) && !v.retained.uncertain && v.log == [Rebound(false)]
  {
    var w := Boot(Explicit, None, true, 0, 0);
    assert Booted(w) && Runs(w, [], w);
    v := BindSelected(w, s);
    LeadsNowhere(w);
    LeadsOn(w, w, Select(s), v);
    LeadsReachable(w, v);
  }

  /** Draft `d` is prepared, authorised, broadcast and lost. */
  lemma LostRun(s: Selected, d: string) returns (v: World)
    requires 0 <= s.revision <= MAX_U64
    ensures
      var id := IdentityOf(s);
      && Reachable(v) && Resting(v, id) && v.retained.uncertain
      && v.retained.preview == Some(Preview(d, id.realm, true))
      && v.log == [Rebound(false)] + Authorisation(id, d) + Lost(id, d)
  {
    var id := IdentityOf(s);
    var w := BoundRun(s);
    var c := PrepareAndCheckRun(w, id, d);
    v := LostBroadcastRun(c, id, d, id.realm);
    LeadsJoin(w, c, v);
    LeadsReachable(w, v);
  }

  // --------------------------------------------------------- uncertainty is not tied to a draft

  /** The status port answers that the draft was cancelled before it was broadcast. */
  function SeenCancelled(d: string): Event {
    StatusReturned(d, Uncertain, CancelledUnseen)
  }

  /** The status call for an uncertain broadcast sees a cancellation, and the mark is cleared. */
  lemma CancelRun(w: World, id: Identity, d: string) returns (v: World)
    requires w.pc == CheckUncertain(id, d, id.realm) && w.retained.uncertain
    ensures Leads(w, v) && v == w.(retained := w.retained.(uncertain := false), pc := LoadRecord(id, d, id.realm),
                                   log := w.log + [SeenCancelled(d)])
  {
    var n := id.realm;
    LeadsNowhere(w);
    LeadsOn(w, w, Proceed(Go), w.(pc := Recovering(id, d, n, Uncertain)));
    var u := Log(w.(pc := ClearUncertain(id, d, n)), SeenCancelled(d));
    LeadsOn(w, w.(pc := Recovering(id, d, n, Uncertain)), Proceed(CancelledUnseen), u);
    v := w.(retained := w.retained.(uncertain := false), pc := LoadRecord(id, d, n),
            log := w.log + [SeenCancelled(d)]);
    LeadsOn(w, u, Proceed(Go), v);
  }

  /** With a mark left behind, a new draft is prepared, seen cancelled and broadcast. */
  lemma SecondDraftRun(w: World, id: Identity, e: string) returns (v: World)
    requires Resting(w, id) && w.retained.uncertain
    ensures Leads(w, v)
    ensures v.log == w.log + Authorisation(id, e) + [SeenCancelled(e)] + [Marked, Broadcast(id, e)]
  {
    var c := PrepareAndCheckRun(w, id, e);
    var x := CancelRun(c, id, e);
    LeadsJoin(w, c, x);
    SendRun(x, id, e, id.realm);
    v := Sent(x, id, e);
    LeadsJoin(w, x, v);
  }

  /**
   The mark of an uncertain broadcast is not tied to its draft: after the broadcast of `d` is lost, another draft `e`
   can be prepared, seen cancelled and broadcast, while nothing was ever learnt about `d`.
   */
  lemma PrepareReplacesUncertainty(s: Selected, d: string, e: string) returns (v: World)
    requires 0 <= s.revision <= MAX_U64
    ensures Reachable(v)
    ensures
      var id := IdentityOf(s);
      v.log == [Rebound(false)] + Authorisation(id, d) + Lost(id, d)
               + Authorisation(id, e) + [SeenCancelled(e)] + [Marked, Broadcast(id, e)]
  {
    var w := LostRun(s, d);
    v := SecondDraftRun(w, IdentityOf(s), e);
    LeadsReachable(w, v);
  }

  // ----------------------------------------------------------------- a rebind reopens a broadcast

  /**
   With a broadcast exposed and the operation past reading its preview, a rebind to another identity makes the
   executor broadcast the same draft again without asking for its status.
   */
  lemma RebindReopensBroadcast(w: World, s: Selected) returns (v: World)
    requires w.pc.CheckUncertain? && Track(w.log).exposed
    requires DurablySubmitting(w.protocol.store, w.pc.identity, w.pc.draft)
    requires w.authority.Explicit? && Rebinds(w.retained, s) && 0 <= s.revision <= MAX_U64
    ensures Leads(w, v)
    ensures v.log == w.log + [Rebound(true), Marked, Broadcast(w.pc.identity, w.pc.draft)]
  {
    var id, d, n := w.pc.identity, w.pc.draft, w.pc.network;
    var w1 := BindSelected(w, s);
    LeadsNowhere(w);
    LeadsOn(w, w, Select(s), w1);
    var w2 := w1.(pc := LoadRecord(id, d, n));
    LeadsOn(w, w1, Proceed(Go), w2);
    SendRun(w2, id, d, n);
    v := Sent(w2, id, d);
    LeadsJoin(w, w2, v);
  }

  /** Such worlds are reachable: the draft whose broadcast was lost is submitted again. */
  lemma ExposedCheckIsReachable(s: Selected, d: string) returns (w: World)
    requires 0 <= s.revision <= MAX_U64
    ensures
      var id := IdentityOf(s);
      && Reachable(w) && w.pc == CheckUncertain(id, d, id.realm) && Track(w.log).exposed
      && DurablySubmitting(w.protocol.store, id, d) && w.authority.Explicit? && Admits(w.retained, id)
      && w.log == [Rebound(false)] + Authorisation(id, d) + Lost(id, d)
  {
    var id := IdentityOf(s);
    var u := LostRun(s, d);
    w := CheckRun(u, id, d, id.realm);
    LeadsReachable(u, w);
    LostIsExposed([Rebound(false)] + Authorisation(id, d), id, d);
  }

  /** The race happens: a lost broadcast is made again with nothing in between but the rebind and the mark. */
  lemma RebindRaceHappens(s: Selected, other: Selected, d: string) returns (v: World)
    requires 0 <= s.revision <= MAX_U64 && 0 <= other.revision <= MAX_U64 && IdentityOf(s) != IdentityOf(other)
    ensures Reachable(v)
    ensures
      var id := IdentityOf(s);
      v.log == [Rebound(false)] + Authorisation(id, d) + Lost(id, d) + [Rebound(true), Marked, Broadcast(id, d)]
  {
    var w := ExposedCheckIsReachable(s, d);
    v := RebindReopensBroadcast(w, other);
    LeadsReachable(w, v);
  }

  // ------------------------------------------------------- a draft outlives the binding of its prepare

  /** The realm is rebound while a draft is being prepared, and the draft is retained under the new binding. */
  lemma DriftRun(w: World, id: Identity, s: Selected, d: string) returns (v: World)
    requires Resting(w, id) && !w.retained.uncertain && IdentityOf(s) != id && 0 <= s.revision <= MAX_U64
    ensures Leads(w, v) && Resting(v, IdentityOf(s)) && !v.retained.uncertain
    ensures v.retained.preview == Some(Preview(d, id.realm, false))
    ensures v.log == w.log + [Rebound(false), PreparedFor(id, d, false)]
  {
    var w1 := w.(pc := Preparing(id));
    LeadsNowhere(w);
    LeadsOn(w, w, Start(Prepare(id)), w1);
    var w2 := BindSelected(w1, s);
    LeadsOn(w, w1, Select(s), w2);
    var preview := Preview(d, id.realm, false);
    v := Log(w2.(pc := Idle, retained := w2.retained.(preview := Some(preview))), PreparedFor(id, d, false));
    LeadsOn(w, w2, Proceed(Previewed(preview, true)), v);
  }

  /** A draft prepared for one identity is broadcast for another, when a rebind lands on the prepare itself. */
  lemma PrepareOutlivesBinding(s: Selected, other: Selected, d: string) returns (v: World)
    requires 0 <= s.revision <= MAX_U64 && 0 <= other.revision <= MAX_U64 && IdentityOf(s) != IdentityOf(other)
    ensures Reachable(v)
    ensures v.log == [Rebound(false)] + [Rebound(false), PreparedFor(IdentityOf(s), d, false)]
                     + [Staged(true), AuthorizeCalled(IdentityOf(other), d), Granted(d, s.realm)]
                     + [Marked, Broadcast(IdentityOf(other), d)]
    ensures !PreparedInBinding(v.log, 7)
  {
    var id, next := IdentityOf(s), IdentityOf(other);
    var w := BoundRun(s);
    var u := DriftRun(w, id, other, d);
    var c := ConsentAndCheckRun(u, next, d, id.realm);
    LeadsJoin(w, u, c);
    v := FirstBroadcastRun(c, next, d, id.realm);
    LeadsJoin(w, c, v);
    LeadsReachable(w, v);
  }

  // --------------------------------------------------------- a confirmation is not tied to a draft

  /** A decision made while `d` was retained authorises `e`, when `e` is prepared before it is used. */
  lemma ConsentMovesToAnotherDraft(s: Selected, d: string, e: string) returns (v: World)
    requires 0 <= s.revision <= MAX_U64
    ensures Reachable(v)
    ensures
      var id := IdentityOf(s);
      v.log == [Rebound(false)] + [PreparedFor(id, d, true)] + [Staged(true)] + [PreparedFor(id, e, true)]
               + [AuthorizeCalled(id, e), Granted(e, id.realm)]
  {
    var id := IdentityOf(s);
    var w := BoundRun(s);
    PrepareRun(w, id, d);
    var w1 := Drafted(w, id, d);
    var w2 := StageConfirmation(w1, true);
    LeadsOn(w, w1, Stage(true), w2);
    PrepareRun(w2, id, e);
    var w3 := Drafted(w2, id, e);
    LeadsJoin(w, w2, w3);
    AuthoriseRun(w3, id, e, id.realm);
    v := Authorised(w3, id, e, id.realm);
    LeadsJoin(w, w3, v);
    LeadsReachable(w, v);
  }

  // ---------------------------------------------------------------- observing after a restart

  /** Where nothing is retained, the status asked about is that of the draft of the record left in the store. */
  lemma ObservesStoredDraft(w: World, id: Identity, d: string) returns (v: World)
    requires Reachable(w) && w.pc.Idle? && Admits(w.retained, id) && w.retained.preview.None?
    requires w.protocol.store.Some?
    requires w.protocol.store.value.identity == id && w.protocol.store.value.draft == Some(d)
    ensures Leads(w, v) && Reachable(v) && v.log == w.log + [ObserveCalled(d)]
  {
    var f := w.retained.finality;
    var w1 := w.(pc := LoadDraft(id, f));
    v := Log(w.(pc := Observing(id, d, f)), ObserveCalled(d));
    LeadsNowhere(w);
    LeadsOn(w, w, Start(Observe(id)), w1);
    LeadsOn(w, w1, Proceed(Go), v);
    LeadsReachable(w, v);
  }

  /** A submit that finds no draft retained, as after a restart, asks for the status of its own, whatever that is. */
  lemma SubmitWithoutPreviewAsks(w: World, answer: Answer) returns (v: World)
    requires Reachable(w) && w.pc.CheckPreview? && w.retained.preview.None? && !answer.Synced?
    ensures Reachable(v) && v.log == w.log + [StatusReturned(w.pc.draft, NoPreview, answer)]
    ensures v.retained == w.retained
  {
    var w1 := w.(pc := Recovering(w.pc.identity, w.pc.draft, "", NoPreview));
    LeadsNowhere(w);
    LeadsOn(w, w, Proceed(Go), w1);
    LeadsReachable(w, w1);
    v := NoPreviewReturn(w1, answer);
    LeadsReachable(w1, v);
  }

  lemma NoPreviewReturn(w: World, answer: Answer) returns (v: World)
    requires w.pc.Recovering? && w.pc.why.NoPreview? && !answer.Synced?
    ensures Leads(w, v) && v.retained == w.retained
    ensures v.log == w.log + [StatusReturned(w.pc.draft, NoPreview, answer)]
  {
    v := RecoverReturns(Heard(w, answer), answer);
    LeadsNowhere(w);
    AwaitedIs(w, answer);
    LeadsOn(w, w, Proceed(answer), v);
  }

  // ---------------------------------------------------------------- refreshing

  /** The refresh of a realm with an observation, up to where it asks for the DUST status. */
  lemma RefreshRun(w: World, id: Identity, v: World)
    requires w.pc.Idle? && Admits(w.retained, id) && w.retained.chainRevision > 0
    requires v == Log(w.(pc := Refreshing(id, w.retained.chainRevision)), RefreshCalled(w.retained.chainRevision))
    ensures Leads(w, v)
  {
    var w1 := w.(pc := ReadChainRevision(id));
    LeadsNowhere(w);
    LeadsOn(w, w, Start(Refresh(id)), w1);
    LeadsOn(w, w1, Proceed(Go), v);
  }

  lemma StampRun(w: World, after: int)
    requires w.pc == StampRefresh(after)
    ensures Leads(w, StampRefreshed(w, after))
  {
    LeadsNowhere(w);
    LeadsOn(w, w, Proceed(Go), StampRefreshed(w, after));
  }

  lemma ReadyRun(w: World, id: Identity, after: int)
    requires w.pc == Refreshing(id, after)
    ensures Leads(w, w.(pc := StampRefresh(after)))
  {
    LeadsNowhere(w);
    LeadsOn(w, w, Proceed(DustReady), w.(pc := StampRefresh(after)));
  }

  lemma SyncRun(w: World, id: Identity, after: int, s: Selected, v: World)
    requires w.pc == Refreshing(id, after) && Admits(w.retained, id)
    requires IdentityOf(s) == id && 0 <= s.revision <= MAX_U64
    requires v == w.(pc := StampRefresh(after), retained := Bind(w.retained, s))
    ensures Leads(w, v)
  {
    var w1 := w.(pc := Rebinding(id, s, after));
    LeadsNowhere(w);
    LeadsOn(w, w, Proceed(Synced(s)), w1);
    LeadsOn(w, w1, Proceed(Go), v);
  }

  /**
   Where an observation has been made in the binding a refresh is reported, with DUST ready at once or after the
   realm was synchronised; the revision of a newer realm is taken over.
   */
  lemma RefreshCompletes(w: World, id: Identity, s: Selected) returns (v: World, u: World)
    requires Reachable(w) && w.pc.Idle? && Admits(w.retained, id) && w.retained.chainRevision > 0
    requires IdentityOf(s) == id && 0 <= s.revision <= MAX_U64
    ensures Reachable(v) && Reachable(u)
    ensures
      var after, revision := w.retained.chainRevision, w.retained.operationRevision;
      && v.log == w.log + [RefreshCalled(after)] + [DustRefreshed(Increment(revision), after)]
      && u.log == w.log + [RefreshCalled(after)] + [DustRefreshed(Increment(P.Max(revision, s.revision)), after)]
  {
    var after := w.retained.chainRevision;
    var w1 := Log(w.(pc := Refreshing(id, after)), RefreshCalled(after));
    RefreshRun(w, id, w1);
    LeadsReachable(w, w1);
    var w2, w3 := w1.(pc := StampRefresh(after)), w1.(pc := StampRefresh(after), retained := Bind(w1.retained, s));
    ReadyRun(w1, id, after);
    SyncRun(w1, id, after, s, w3);
    LeadsReachable(w1, w2);
    LeadsReachable(w1, w3);
    StampRun(w2, after);
    StampRun(w3, after);
    v, u := StampRefreshed(w2, after), StampRefreshed(w3, after);
    LeadsReachable(w2, v);
    LeadsReachable(w3, u);
  }

  // ---------------------------------------------------------------- finality in a new binding

  lemma ObserveRun(w: World, id: Identity, d: string, v: World)
    requires w.pc.Idle? && Admits(w.retained, id) && !w.retained.finality
    requires w.retained.preview.Some? && w.retained.preview.value.draft == d
    requires
      var r := NextChainRevision(w.retained);
      v == w.(retained := r, pc := MarkFinality,
              log := w.log + [ObserveCalled(d), ObserveReturned(d, IncludedStatus),
                              FinalityObserved(r.operationRevision)])
    ensures Leads(w, v)
  {
    var w1 := Log(w.(pc := Observing(id, d, false)), ObserveCalled(d));
    LeadsNowhere(w);
    LeadsOn(w, w, Start(Observe(id)), w1);
    assert w1.log + [ObserveReturned(d, IncludedStatus)]
         + [FinalityObserved(NextChainRevision(w.retained).operationRevision)] == v.log;
    LeadsOn(w, w1, Proceed(IncludedStatus), v);
  }

  /** Whatever was reported before, a rebind makes finality news again: that of the next draft is reported as such. */
  lemma FinalityPerBinding(w: World, s: Selected, d: string) returns (v: World)
    requires Reachable(w) && w.pc.Idle? && Rebinds(w.retained, s) && 0 <= s.revision <= MAX_U64
    ensures Reachable(v) && |v.log| == |w.log| + 5
    ensures v.log[|w.log|] == Rebound(false) && v.log[|w.log| + 4].FinalityObserved?
    ensures v.log[|w.log| + 3] == ObserveReturned(d, IncludedStatus)
  {
    var id, w1 := IdentityOf(s), BindSelected(w, s);
    LeadsNowhere(w);
    LeadsOn(w, w, Select(s), w1);
    LeadsReachable(w, w1);
    PrepareRun(w1, id, d);
    var w2 := Drafted(w1, id, d);
    LeadsReachable(w1, w2);
    var r := NextChainRevision(w2.retained);
    v := w2.(retained := r, pc := MarkFinality,
             log := w2.log + [ObserveCalled(d), ObserveReturned(d, IncludedStatus),
                              FinalityObserved(r.operationRevision)]);
    ObserveRun(w2, id, d, v);
    LeadsReachable(w2, v);
  }
}
