/** The faucet authority's balance guard: a successful grant bounds the balance the next one may start from. */
module NightGrant {
  import opened Common

  const GRANT: nat := 50_000_000_000

  datatype GrantError = InvalidRecipient | NetworkMismatch | AuthorityNotReady | Rejected | OutcomeUnknown | Unavailable

  /** What one synchronisation of the account shows. */
  datatype Reading = SyncFailed | NoNightBalance | UnreadableBalance | Balance(units: nat)

  /** The readings of one wait; the deadline has passed at the last of them and at none before. */
  type Readings = r: seq<Reading> | |r| > 0 witness [SyncFailed]

  /** What preparing, authorising and submitting the transfer come to. */
  datatype Transfer = Submitted | TransferFailed(error: GrantError)

  datatype Attempt = Attempt(readings: Readings, transfer: Transfer)

  datatype Observed = Seen(balance: nat) | Missed(error: GrantError)

  datatype Result = Granted | Failed(error: GrantError)

  // --------------------------------------------------------------------------- one attempt

  function Unreadable(r: Reading): GrantError {
    if r.NoNightBalance? then AuthorityNotReady else Unavailable
  }

  /** Waits until the balance is at most `maximum`. */
  function AwaitBelow(maximum: nat, readings: Readings): Observed
    decreases |readings|
  {
    var r, last := readings[0], |readings| == 1;
    if r.NoNightBalance? || r.UnreadableBalance? then Missed(Unreadable(r))
    else if r.Balance? && r.units <= maximum then Seen(r.units)
    else if last then Missed(if r.SyncFailed? then Unavailable else OutcomeUnknown)
    else AwaitBelow(maximum, readings[1..])
  }

  /** `await_spendable_balance` */
  function Await(pending: Option<nat>, readings: Readings): Observed {
    match pending
    case Some(maximum) => AwaitBelow(maximum, readings)
    case None => if readings[0].Balance? then Seen(readings[0].units) else Missed(Unreadable(readings[0]))
  }

  /** Whether a grant that got as far as seeing a balance succeeds. */
  function Outcome(balance: nat, transfer: Transfer): Result {
    if balance < GRANT then Failed(AuthorityNotReady)
    else if transfer.Submitted? then Granted
    else Failed(transfer.error)
  }

  function GrantResult(pending: Option<nat>, a: Attempt): Result {
    match Await(pending, a.readings)
    case Missed(error) => Failed(error)
    case Seen(balance) => Outcome(balance, a.transfer)
  }

  /** The guard after `grant`: kept by a miss, cleared by a sighting, set again by a success. */
  function PendingAfter(pending: Option<nat>, a: Attempt): Option<nat> {
    match Await(pending, a.readings)
    case Missed(_) => pending
    case Seen(balance) =>
      if balance >= GRANT && a.transfer.Submitted? then Some(balance - GRANT) else None
  }

  // ------------------------------------------------------------- what the readings come to

  /** A reading that a wait for a balance of at most `maximum` goes past. */
  predicate PassedOver(maximum: nat, r: Reading) {
    r.SyncFailed? || (r.Balance? && r.units > maximum)
  }

  /** Reading `i` shows `b`, and it is the one the wait ends at. */
  predicate SeenAt(pending: Option<nat>, readings: Readings, i: nat, b: nat) {
    && i < |readings| && readings[i] == Balance(b)
    && match pending
       case None => i == 0
       case Some(maximum) => b <= maximum && forall j :: 0 <= j < i ==> PassedOver(maximum, readings[j])
  }

  lemma {:induction false} BelowSees(maximum: nat, readings: Readings, i: nat)
    requires i < |readings| && forall j :: 0 <= j < i ==> PassedOver(maximum, readings[j])
    requires !PassedOver(maximum, readings[i])
    ensures AwaitBelow(maximum, readings) ==
            if readings[i].Balance? then Seen(readings[i].units) else Missed(Unreadable(readings[i]))
    decreases i
  {
    if i > 0 {
      assert PassedOver(maximum, readings[0]);
      BelowSees(maximum, readings[1..], i - 1);
    }
  }

  lemma {:induction false} BelowMisses(maximum: nat, readings: Readings)
    requires forall j :: 0 <= j < |readings| ==> PassedOver(maximum, readings[j])
    ensures AwaitBelow(maximum, readings) ==
            Missed(if readings[|readings| - 1].SyncFailed? then Unavailable else OutcomeUnknown)
    decreases |readings|
  {
    assert PassedOver(maximum, readings[0]);
    if |readings| > 1 {
      BelowMisses(maximum, readings[1..]);
    }
  }

  /** The first reading that is not passed over, if there is one. */
  function FirstKept(maximum: nat, readings: seq<Reading>): (i: nat)
    ensures i <= |readings| && forall j :: 0 <= j < i ==> PassedOver(maximum, readings[j])
    ensures i < |readings| ==> !PassedOver(maximum, readings[i])
  {
    if readings == [] || !PassedOver(maximum, readings[0]) then 0 else 1 + FirstKept(maximum, readings[1..])
  }

  /**
   A wait sees `b` exactly when some reading shows `b`: the first one without a guard; with a guard, one at or
   below it after nothing but failed synchronisations and balances above it.
   */
  lemma {:induction false} SeenIff(pending: Option<nat>, readings: Readings, b: nat)
    ensures Await(pending, readings) == Seen(b) <==> exists i: nat :: SeenAt(pending, readings, i, b)
  {
    if pending.None? {
      assert readings[0] == Balance(b) ==> SeenAt(pending, readings, 0, b);
    } else {
      var i := FirstKept(pending.value, readings);
      if i < |readings| {
        BelowSees(pending.value, readings, i);
        assert readings[i] == Balance(b) ==> SeenAt(pending, readings, i, b);
      } else {
        BelowMisses(pending.value, readings);
      }
    }
  }

  lemma {:induction false} SightIff(pending: Option<nat>, readings: Readings)
    ensures Await(pending, readings).Seen? <==> exists i: nat, b: nat :: SeenAt(pending, readings, i, b)
    ensures Await(pending, readings).Seen? ==>
              exists i: nat :: SeenAt(pending, readings, i, Await(pending, readings).balance)
  {
    forall i: nat, b: nat | SeenAt(pending, readings, i, b) ensures Await(pending, readings) == Seen(b) {
      SeenIff(pending, readings, b);
    }
    if Await(pending, readings).Seen? {
      SeenIff(pending, readings, Await(pending, readings).balance);
    }
  }

  /** What a wait that sees no balance fails with. */
  predicate MissedFor(pending: Option<nat>, readings: Readings, i: nat, error: GrantError) {
    && i < |readings|
    && match pending
       case None => i == 0 && !readings[0].Balance? && error == Unreadable(readings[0])
       case Some(maximum) =>
         && (forall j :: 0 <= j < i ==> PassedOver(maximum, readings[j]))
         && match readings[i]
            case NoNightBalance => error == AuthorityNotReady
            case UnreadableBalance => error == Unavailable
            case SyncFailed => i == |readings| - 1 && error == Unavailable
            case Balance(units) => i == |readings| - 1 && units > maximum && error == OutcomeUnknown
  }

  /** The wait fails exactly at an unreadable account, or at its deadline with nothing low enough seen. */
  lemma {:induction false} MissedIff(pending: Option<nat>, readings: Readings, error: GrantError)
    ensures Await(pending, readings) == Missed(error) <==> exists i: nat :: MissedFor(pending, readings, i, error)
  {
    if pending.None? {
      assert Await(pending, readings) == Missed(error) ==> MissedFor(pending, readings, 0, error);
    } else {
      var i := FirstKept(pending.value, readings);
      if i < |readings| {
        BelowSees(pending.value, readings, i);
        assert Await(pending, readings) == Missed(error) ==> MissedFor(pending, readings, i, error);
      } else {
        BelowMisses(pending.value, readings);
        assert Await(pending, readings) == Missed(error) ==> MissedFor(pending, readings, |readings| - 1, error);
      }
    }
  }

  /**
   An attempt is granted exactly when its wait ends at a reading that covers the grant and the transfer is
   submitted; it then leaves that balance less the grant as the guard.
   */
  lemma {:induction false} GrantedIff(pending: Option<nat>, a: Attempt)
    ensures GrantResult(pending, a) == Granted <==>
            a.transfer.Submitted? && exists i: nat, b: nat :: SeenAt(pending, a.readings, i, b) && b >= 50_000_000_000
    ensures forall i: nat, b: nat :: SeenAt(pending, a.readings, i, b) ==>
              PendingAfter(pending, a) == if a.transfer.Submitted? && b >= GRANT then Some(b - GRANT) else None
    ensures (forall i: nat, b: nat :: !SeenAt(pending, a.readings, i, b)) ==> PendingAfter(pending, a) == pending
  {
    SightIff(pending, a.readings);
    forall i: nat, b: nat | SeenAt(pending, a.readings, i, b) ensures Await(pending, a.readings) == Seen(b) {
      SeenIff(pending, a.readings, b);
    }
  }

  /** It fails with what the wait failed with, for want of balance, or with what the transfer failed with. */
  lemma {:induction false} FailedIff(pending: Option<nat>, a: Attempt, error: GrantError)
    ensures GrantResult(pending, a) == Failed(error) <==>
            || (exists i: nat :: MissedFor(pending, a.readings, i, error))
            || (exists i: nat, b: nat :: SeenAt(pending, a.readings, i, b)
                  && if b < 50_000_000_000 then error == AuthorityNotReady else a.transfer == TransferFailed(error))
  {
    SightIff(pending, a.readings);
    MissedIff(pending, a.readings, error);
    forall i: nat, b: nat | SeenAt(pending, a.readings, i, b) ensures Await(pending, a.readings) == Seen(b) {
      SeenIff(pending, a.readings, b);
    }
  }

  class ApplicationNightGrant {
    var pending: Option<nat>

    constructor ()
      ensures pending == None
    {
      pending := None;
    }

    method AwaitSpendableBalance(readings: Readings) returns (r: Observed)
      modifies this
      ensures r == Await(old(pending), readings)
      ensures pending == if r.Seen? then None else old(pending)
      ensures r.Seen? <==> exists i: nat, b: nat :: SeenAt(old(pending), readings, i, b)
      ensures r.Seen? ==> exists i: nat :: SeenAt(old(pending), readings, i, r.balance)
    {
      SightIff(pending, readings);
      var maximum := pending;
      var i := 0;
      while true
        invariant 0 <= i < |readings| && pending == old(pending) == maximum
        invariant i > 0 ==> maximum.Some?
        invariant maximum.Some? ==> AwaitBelow(maximum.value, readings) == AwaitBelow(maximum.value, readings[i..])
        decreases |readings| - i
      {
        var reading, late := readings[i], i == |readings| - 1;
        if reading.SyncFailed? {
          if maximum.Some? && !late {
            i := i + 1;
            continue;
          }
          return Missed(Unavailable);
        }
        if !reading.Balance? {
          return Missed(Unreadable(reading));
        }
        if maximum.None? {
          return Seen(reading.units);
        }
        if reading.units <= maximum.value {
          if pending == maximum {
            pending := None;
          }
          return Seen(reading.units);
        }
        if late {
          return Missed(OutcomeUnknown);
        }
        i := i + 1;
      }
    }

    method Grant(a: Attempt) returns (r: Result)
      modifies this
      ensures r == GrantResult(old(pending), a) && pending == PendingAfter(old(pending), a)
      ensures r == Granted ==>
                exists i: nat, b: nat ::
                  SeenAt(old(pending), a.readings, i, b) && b >= GRANT && pending == Some(b - GRANT)
    {
      GrantedIff(pending, a);
      var observed := AwaitSpendableBalance(a.readings);
      if observed.Missed? {
        return Failed(observed.error);
      }
      if observed.balance < GRANT {
        return Failed(AuthorityNotReady);
      }
      if a.transfer.TransferFailed? {
        return Failed(a.transfer.error);
      }
      pending := Some(observed.balance - GRANT);
      r := Granted;
    }
  }

  // ---------------------------------------------------------------------------- whole runs

  /** The guard after a sequence of attempts. */
  function Pending(pending: Option<nat>, attempts: seq<Attempt>): Option<nat> {
    if attempts == [] then pending
    else PendingAfter(Pending(pending, attempts[..|attempts| - 1]), attempts[|attempts| - 1])
  }

  /** What attempt `i` saw. */
  function Sight(pending: Option<nat>, attempts: seq<Attempt>, i: nat): Observed
    requires i < |attempts|
  {
    Await(Pending(pending, attempts[..i]), attempts[i].readings)
  }

  predicate Succeeds(pending: Option<nat>, attempts: seq<Attempt>, i: nat)
    requires i < |attempts|
  {
    GrantResult(Pending(pending, attempts[..i]), attempts[i]) == Granted
  }

  /** Every attempt that saw a balance went on to succeed. */
  predicate BackToBack(pending: Option<nat>, attempts: seq<Attempt>) {
    forall i :: 0 <= i < |attempts| && Sight(pending, attempts, i).Seen? ==> Succeeds(pending, attempts, i)
  }

  function Successes(pending: Option<nat>, attempts: seq<Attempt>): nat {
    if attempts == [] then 0
    else
      var n := |attempts| - 1;
      Successes(pending, attempts[..n]) + if Succeeds(pending, attempts, n) then 1 else 0
  }

  lemma {:induction false} AwaitBelowIsBelow(maximum: nat, readings: Readings)
    ensures AwaitBelow(maximum, readings).Seen? ==> AwaitBelow(maximum, readings).balance <= maximum
    decreases |readings|
  {
    if |readings| > 1 {
      AwaitBelowIsBelow(maximum, readings[1..]);
    }
  }

  /** The next balance to be seen is certain to be at most `bound` exactly when the guard is set that low. */
  lemma GuardIff(pending: Option<nat>, bound: nat)
    ensures (forall readings: Readings :: Await(pending, readings).Seen? ==> Await(pending, readings).balance <= bound)
       <==> pending.Some? && pending.value <= bound
  {
    if pending.Some? && pending.value <= bound {
      forall readings: Readings | Await(pending, readings).Seen? ensures Await(pending, readings).balance <= bound {
        AwaitBelowIsBelow(pending.value, readings);
      }
    } else {
      var high: Readings := [Balance(if pending.Some? then pending.value else bound + 1)];
      assert Await(pending, high) == Seen(high[0].units);
    }
  }

  lemma PrefixFacts(pending: Option<nat>, attempts: seq<Attempt>, n: nat, i: nat)
    requires i < n <= |attempts|
    ensures Sight(pending, attempts[..n], i) == Sight(pending, attempts, i)
    ensures Succeeds(pending, attempts[..n], i) == Succeeds(pending, attempts, i)
  {
    assert attempts[..n][..i] == attempts[..i];
  }

  /** Some attempt after `w` saw a balance. */
  predicate SeenSince(attempts: seq<Attempt>, w: nat) {
    exists i :: w < i < |attempts| && Sight(None, attempts, i).Seen?
  }

  lemma SeenSinceGrows(attempts: seq<Attempt>, w: nat, n: nat)
    requires w < n == |attempts| - 1
    ensures SeenSince(attempts, w) <==> SeenSince(attempts[..n], w) || Sight(None, attempts, n).Seen?
  {
    forall i | 0 <= i < n ensures Sight(None, attempts[..n], i) == Sight(None, attempts, i) {
      PrefixFacts(None, attempts, n, i);
    }
  }

  lemma {:induction false} GuardAfterSuccess(attempts: seq<Attempt>, w: nat, b: nat)
    requires w < |attempts| && Succeeds(None, attempts, w) && Sight(None, attempts, w) == Seen(b)
    requires forall i :: w < i < |attempts| ==> !Succeeds(None, attempts, i)
    ensures b >= GRANT
    ensures Pending(None, attempts) == if SeenSince(attempts, w) then None else Some(b - GRANT)
    decreases |attempts|
  {
    var n := |attempts| - 1;
    if w < n {
      forall i | 0 <= i < n
        ensures Sight(None, attempts[..n], i) == Sight(None, attempts, i)
        ensures Succeeds(None, attempts[..n], i) == Succeeds(None, attempts, i)
      {
        PrefixFacts(None, attempts, n, i);
      }
      GuardAfterSuccess(attempts[..n], w, b);
      SeenSinceGrows(attempts, w, n);
      assert !Succeeds(None, attempts, n);
    }
  }

  /**
   After a success from balance `b`, with no later success, the next balance to be seen is certain to be at most
   `b` less the grant exactly while no attempt since has seen a balance.
   */
  lemma {:induction false} ConservationIff(attempts: seq<Attempt>, w: nat, b: nat)
    requires w < |attempts| && Succeeds(None, attempts, w) && Sight(None, attempts, w) == Seen(b)
    requires forall i :: w < i < |attempts| ==> !Succeeds(None, attempts, i)
    ensures b >= GRANT
    ensures (forall readings: Readings ::
               Await(Pending(None, attempts), readings).Seen?
               ==> Await(Pending(None, attempts), readings).balance <= b - GRANT)
            <==> !SeenSince(attempts, w)
  {
    GuardAfterSuccess(attempts, w, b);
    GuardIff(Pending(None, attempts), b - GRANT);
  }

  /** The balance the first success started from. */
  function FirstBase(pending: Option<nat>, attempts: seq<Attempt>): Option<nat> {
    if attempts == [] then None
    else
      var n := |attempts| - 1;
      var earlier := FirstBase(pending, attempts[..n]);
      if earlier.Some? then earlier
      else if Succeeds(pending, attempts, n) then Some(Sight(pending, attempts, n).balance)
      else None
  }

  /** Every success while none fails after seeing a balance lowers the guard by a whole grant. */
  lemma {:induction false} BackToBackDrains(pending: Option<nat>, attempts: seq<Attempt>)
    requires BackToBack(pending, attempts)
    ensures
      var k, guard, base := Successes(pending, attempts), Pending(pending, attempts), FirstBase(pending, attempts);
      if k == 0 then guard == pending && base.None?
      else guard.Some? && base.Some? && guard.value + k * GRANT <= base.value
  {
    if attempts != [] {
      var n := |attempts| - 1;
      forall i | 0 <= i < n
        ensures Sight(pending, attempts[..n], i) == Sight(pending, attempts, i)
        ensures Succeeds(pending, attempts[..n], i) == Succeeds(pending, attempts, i)
      {
        PrefixFacts(pending, attempts, n, i);
      }
      BackToBackDrains(pending, attempts[..n]);
      if Sight(pending, attempts, n).Seen? {
        assert Succeeds(pending, attempts, n);
        if Pending(pending, attempts[..n]).Some? {
          AwaitBelowIsBelow(Pending(pending, attempts[..n]).value, attempts[n].readings);
        }
      }
    }
  }

  /** Conservation: k successes back to back, first from balance `b0`, need `b0` to cover k grants. */
  lemma {:induction false} Conservation(pending: Option<nat>, attempts: seq<Attempt>, k: nat, b0: nat)
    requires BackToBack(pending, attempts)
    requires Successes(pending, attempts) == k && FirstBase(pending, attempts) == Some(b0)
    ensures b0 >= k * GRANT
  {
    BackToBackDrains(pending, attempts);
  }

  /** What one more attempt adds to a run. */
  lemma {:induction false} OneMore(pending: Option<nat>, attempts: seq<Attempt>, a: Attempt)
    ensures
      var longer, guard := attempts + [a], Pending(pending, attempts);
      && Pending(pending, longer) == PendingAfter(guard, a)
      && Sight(pending, longer, |attempts|) == Await(guard, a.readings)
      && (Succeeds(pending, longer, |attempts|) <==> GrantResult(guard, a) == Granted)
      && Successes(pending, longer)
         == Successes(pending, attempts) + (if GrantResult(guard, a) == Granted then 1 else 0)
      && (FirstBase(pending, attempts).Some? ==> FirstBase(pending, longer) == FirstBase(pending, attempts))
      && (FirstBase(pending, attempts).None? && GrantResult(guard, a) == Granted ==>
            FirstBase(pending, longer) == Some(Await(guard, a.readings).balance))
  {
    var longer := attempts + [a];
    assert longer[..|longer| - 1] == attempts && longer[|longer| - 1] == a;
  }

  /**
   The condition is needed: an attempt that sees the lowered balance and then fails clears the guard, and a stale
   higher balance funds a second grant from one grant's worth.
   */
  lemma {:induction false} FailedSightLosesTheGuard(win: Attempt, dry: Attempt, attempts: seq<Attempt>)
    requires win == Attempt([Balance(GRANT)], Submitted) && dry == Attempt([Balance(0)], Submitted)
    requires attempts == [win, dry, win]
    ensures FirstBase(None, attempts) == Some(GRANT) && Successes(None, attempts) == 2 && !BackToBack(None, attempts)
  {
    OneMore(None, [], win);
    assert [] + [win] == [win];
    OneMore(None, [win], dry);
    assert [win] + [dry] == [win, dry];
    OneMore(None, [win, dry], win);
    assert [win, dry] + [win] == attempts;
    PrefixFacts(None, attempts, 2, 1);
    assert attempts[..2] == [win, dry];
    assert Sight(None, attempts, 1).Seen? && !Succeeds(None, attempts, 1);
  }
}
