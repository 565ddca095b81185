/** The standalone faucet's bounded receipt cache. */
module Faucet {
  import opened Common

  const MAX_REQUEST_ID_CHARACTERS := 128
  const MAX_RECIPIENT_CHARACTERS := 256
  const MAX_RECEIPTS := 256
  const RECIPIENT_PREFIX := "mn_addr_undeployed1"

  datatype Outcome = Included(transaction: string, block: string) | OutcomeUnknown
  datatype Receipt = Receipt(requestId: string, recipient: string, outcome: Outcome)

  datatype GrantError = InvalidRecipient | NetworkMismatch | AuthorityNotReady | Rejected | Unavailable
  datatype GrantAnswer = Granted(transaction: string, block: string) | Lost | Refused(error: GrantError)

  datatype Response =
    | InvalidParams
    | IdempotencyConflict
    | Settled(receipt: Receipt, deduplicated: bool)
    | Unknown
    | Failed(error: GrantError)

  /** One retained receipt, and whether it records a grant call rather than an alias of an earlier one. */
  datatype Entry = Entry(receipt: Receipt, granted: bool)

  /** What one funding request answers, what it retains, and whether it called the grant port. */
  datatype Reply = Reply(response: Response, retained: Option<Entry>, asked: bool)

  datatype Call = Call(requestId: string, recipient: string, answer: GrantAnswer)

  // ------------------------------------------------------------------------ one request

  predicate TokenCharacter(c: char) {
    'a' <= c <= 'z' || 'A' <= c <= 'Z' || '0' <= c <= '9' || c == '-' || c == '_' || c == '.'
  }

  predicate ValidToken(s: string) {
    0 < |s| <= MAX_REQUEST_ID_CHARACTERS && forall i :: 0 <= i < |s| ==> TokenCharacter(s[i])
  }

  predicate ValidRecipient(s: string) {
    && |RECIPIENT_PREFIX| < |s| <= MAX_RECIPIENT_CHARACTERS
    && RECIPIENT_PREFIX <= s
    && (forall i :: 0 <= i < |s| ==> '!' <= s[i] <= '~' && s[i] != '@')
    && !(exists i :: 0 <= i < |s| - 2 && s[i] == ':' && s[i + 1] == '/' && s[i + 2] == '/')
  }

  predicate ValidCall(c: Call) {
    ValidToken(c.requestId) && ValidRecipient(c.recipient)
  }

  predicate TokenCode(n: int) {
    48 <= n <= 57 || 65 <= n <= 90 || 97 <= n <= 122 || n in {45, 46, 95}
  }

  /** A token is 1 to 128 ASCII letters, digits, hyphens, dots and underscores. */
  lemma TokenIff(s: string)
    ensures ValidToken(s) <==> 1 <= |s| <= 128 && forall i :: 0 <= i < |s| ==> TokenCode(s[i] as int)
  {
    forall i | 0 <= i < |s| ensures TokenCharacter(s[i]) <==> TokenCode(s[i] as int) {
    }
  }

  /** No recipient contains an at sign or `://`, and each is the prefix and more visible ASCII, 256 at most. */
  lemma RecipientRefuses(a: string, b: string, s: string)
    ensures !ValidRecipient(a + "@" + b) && !ValidRecipient(a + "://" + b)
    ensures ValidRecipient(s) ==>
              "mn_addr_undeployed1" < s && |s| <= 256 && forall i :: 0 <= i < |s| ==> 33 <= s[i] as int <= 126
  {
    assert (a + "@" + b)[|a|] == '@';
    var c := a + "://" + b;
    assert c[|a|] == ':' && c[|a| + 1] == '/' && c[|a| + 2] == '/';
  }

  /** Conversely, the prefix and any visible ASCII without an at sign or a slash is one. */
  lemma RecipientAccepts(body: string)
    requires 1 <= |body| <= 237 && forall i :: 0 <= i < |body| ==> 33 <= body[i] as int <= 126 && body[i] !in "@/"
    ensures ValidRecipient("mn_addr_undeployed1" + body)
  {
    var s := "mn_addr_undeployed1" + body;
    forall i | 0 <= i < |s| ensures '!' <= s[i] <= '~' && s[i] != '@' && s[i] != '/' {
      if i >= 19 {
        assert s[i] == body[i - 19];
      }
    }
  }

  /** The oldest retained receipt with this request id. */
  function FindId(receipts: seq<Receipt>, id: string): (r: Option<Receipt>)
    ensures r.Some? ==> r.value in receipts && r.value.requestId == id
    ensures r.None? ==> forall i :: 0 <= i < |receipts| ==> receipts[i].requestId != id
  {
    if receipts == [] then None
    else if receipts[0].requestId == id then Some(receipts[0]) else FindId(receipts[1..], id)
  }

  /** The oldest retained receipt for this recipient. */
  function FindRecipient(receipts: seq<Receipt>, recipient: string): (r: Option<Receipt>)
    ensures r.Some? ==> r.value in receipts && r.value.recipient == recipient
    ensures r.None? ==> forall i :: 0 <= i < |receipts| ==> receipts[i].recipient != recipient
  {
    if receipts == [] then None
    else if receipts[0].recipient == recipient then Some(receipts[0]) else FindRecipient(receipts[1..], recipient)
  }

  /** `retained_response` */
  function RetainedResponse(r: Receipt, deduplicated: bool): Response {
    if r.outcome.OutcomeUnknown? then Unknown else Settled(r, deduplicated)
  }

  /** `fund`, as a function of the retained receipts. */
  function FundReply(receipts: seq<Receipt>, c: Call): Reply {
    if !ValidCall(c) then Reply(InvalidParams, None, false)
    else
      var byId, byRecipient := FindId(receipts, c.requestId), FindRecipient(receipts, c.recipient);
      if byId.Some? then
        Reply(if byId.value.recipient == c.recipient then RetainedResponse(byId.value, true) else IdempotencyConflict,
              None, false)
      else if byRecipient.Some? then
        var alias := Receipt(c.requestId, c.recipient, byRecipient.value.outcome);
        Reply(RetainedResponse(alias, true), Some(Entry(alias, false)), false)
      else match c.answer
        case Granted(transaction, block) =>
          var receipt := Receipt(c.requestId, c.recipient, Included(transaction, block));
          Reply(RetainedResponse(receipt, false), Some(Entry(receipt, true)), true)
        case Lost => Reply(Unknown, Some(Entry(Receipt(c.requestId, c.recipient, OutcomeUnknown), true)), true)
        case Refused(error) => Reply(Failed(error), None, true)
  }

  /** `retain`: the oldest receipt makes room. */
  function Retain(receipts: seq<Receipt>, r: Receipt): seq<Receipt> {
    (if |receipts| == MAX_RECEIPTS then receipts[1..] else receipts) + [r]
  }

  // -------------------------------------------------------------------------- the cache

  function Receipts(log: seq<Entry>): seq<Receipt> {
    seq(|log|, i requires 0 <= i < |log| => log[i].receipt)
  }

  /** The last 256 receipts of the append-only log, or all of them if there are fewer. */
  function Window(log: seq<Entry>): seq<Receipt> {
    Receipts(if |log| <= MAX_RECEIPTS then log else log[|log| - MAX_RECEIPTS..])
  }

  predicate UniqueIds(receipts: seq<Receipt>) {
    forall i, j :: 0 <= i < j < |receipts| ==> receipts[i].requestId != receipts[j].requestId
  }

  predicate OneOutcome(receipts: seq<Receipt>) {
    forall i, j :: 0 <= i < j < |receipts| && receipts[i].recipient == receipts[j].recipient
                   ==> receipts[i].outcome == receipts[j].outcome
  }

  /** A grant entry has no entry for its recipient among the 256 before it. */
  predicate Spaced(log: seq<Entry>) {
    forall i, j :: 0 <= i < j < |log| && j - i <= MAX_RECEIPTS && log[j].granted
                   ==> log[i].receipt.recipient != log[j].receipt.recipient
  }

  predicate Coherent(receipts: seq<Receipt>, log: seq<Entry>) {
    receipts == Window(log) && UniqueIds(receipts) && OneOutcome(receipts) && Spaced(log)
  }

  lemma WindowGrows(log: seq<Entry>, e: Entry)
    ensures Window(log + [e]) == Retain(Window(log), e.receipt)
  {
    var n, longer := |log|, log + [e];
    if n < MAX_RECEIPTS {
      assert Receipts(longer) == Receipts(log) + [e.receipt];
    } else {
      var old256 := log[n - MAX_RECEIPTS..];
      assert longer[n + 1 - MAX_RECEIPTS..] == old256[1..] + [e];
      assert Receipts(old256[1..] + [e]) == Receipts(old256)[1..] + [e.receipt];
    }
  }

  lemma RetainKeepsUnique(receipts: seq<Receipt>, r: Receipt)
    requires UniqueIds(receipts) && forall i :: 0 <= i < |receipts| ==> receipts[i].requestId != r.requestId
    ensures UniqueIds(Retain(receipts, r))
  {
  }

  lemma RetainKeepsOneOutcome(receipts: seq<Receipt>, r: Receipt)
    requires OneOutcome(receipts)
    requires forall i :: 0 <= i < |receipts| && receipts[i].recipient == r.recipient
                         ==> receipts[i].outcome == r.outcome
    ensures OneOutcome(Retain(receipts, r))
  {
  }

  lemma GrantKeepsSpaced(log: seq<Entry>, e: Entry)
    requires Spaced(log)
    requires e.granted ==> forall i :: 0 <= i < |Window(log)| ==> Window(log)[i].recipient != e.receipt.recipient
    ensures Spaced(log + [e])
  {
    if e.granted {
      forall i | 0 <= i < |log| && |log| - i <= MAX_RECEIPTS
        ensures log[i].receipt.recipient != e.receipt.recipient
      {
        assert log[i].receipt == Window(log)[i - (|log| - |Window(log)|)];
      }
    }
  }

  lemma SharedOutcome(receipts: seq<Receipt>, found: Receipt, i: nat)
    requires OneOutcome(receipts) && found in receipts && i < |receipts| && receipts[i].recipient == found.recipient
    ensures receipts[i].outcome == found.outcome
  {
    var j :| 0 <= j < |receipts| && receipts[j] == found;
  }

  /** Every retained entry keeps the cache coherent. */
  lemma RetainKeepsCoherent(receipts: seq<Receipt>, log: seq<Entry>, e: Entry)
    requires Coherent(receipts, log)
    requires FindId(receipts, e.receipt.requestId).None?
    requires
      var same := FindRecipient(receipts, e.receipt.recipient);
      if e.granted then same.None? else same.Some? && same.value.outcome == e.receipt.outcome
    ensures Coherent(Retain(receipts, e.receipt), log + [e])
  {
    WindowGrows(log, e);
    RetainKeepsUnique(receipts, e.receipt);
    GrantKeepsSpaced(log, e);
    forall i | 0 <= i < |receipts| && receipts[i].recipient == e.receipt.recipient
      ensures receipts[i].outcome == e.receipt.outcome
    {
      SharedOutcome(receipts, FindRecipient(receipts, e.receipt.recipient).value, i);
    }
    RetainKeepsOneOutcome(receipts, e.receipt);
  }

  /** What a request retains depends only on what the cache answered. */
  lemma FundKeepsCoherent(receipts: seq<Receipt>, log: seq<Entry>, c: Call)
    requires Coherent(receipts, log) && FundReply(receipts, c).retained.Some?
    ensures
      var e := FundReply(receipts, c).retained.value;
      Coherent(Retain(receipts, e.receipt), log + [e])
  {
    RetainKeepsCoherent(receipts, log, FundReply(receipts, c).retained.value);
  }

  class StandaloneFaucet {
    var receipts: seq<Receipt>
    ghost var log: seq<Entry>

    ghost predicate Valid()
      reads this
    {
      Coherent(receipts, log)
    }

    constructor ()
      ensures Valid() && receipts == [] && log == []
    {
      receipts, log := [], [];
    }

    method RetainEntry(e: Entry)
      modifies this
      ensures receipts == Retain(old(receipts), e.receipt) && log == old(log) + [e]
    {
      if |receipts| == MAX_RECEIPTS {
        receipts := receipts[1..];
      }
      receipts := receipts + [e.receipt];
      log := log + [e];
    }

    /** `fund`; `c.answer` is what the grant port says if it is asked. */
    method Fund(c: Call) returns (response: Response, asked: bool)
      requires Valid()
      modifies this
      ensures Valid()
      ensures
        var reply := FundReply(old(receipts), c);
        && response == reply.response && asked == reply.asked
        && log == old(log) + (if reply.retained.Some? then [reply.retained.value] else [])
        && receipts == if reply.retained.Some? then Retain(old(receipts), reply.retained.value.receipt)
                       else old(receipts)
    {
      asked := false;
      if !ValidCall(c) {
        return InvalidParams, false;
      }
      var byId := FindId(receipts, c.requestId);
      if byId.Some? {
        response := if byId.value.recipient == c.recipient then RetainedResponse(byId.value, true)
                    else IdempotencyConflict;
        return;
      }
      var byRecipient := FindRecipient(receipts, c.recipient);
      var entry: Entry;
      if byRecipient.Some? {
        entry := Entry(Receipt(c.requestId, c.recipient, byRecipient.value.outcome), false);
        response := RetainedResponse(entry.receipt, true);
      } else {
        asked := true;
        match c.answer {
          case Granted(transaction, block) =>
            entry := Entry(Receipt(c.requestId, c.recipient, Included(transaction, block)), true);
            response := RetainedResponse(entry.receipt, false);
          case Lost =>
            entry := Entry(Receipt(c.requestId, c.recipient, OutcomeUnknown), true);
            response := Unknown;
          case Refused(error) =>
            response := Failed(error);
            return;
        }
      }
      RetainKeepsCoherent(receipts, log, entry);
      RetainEntry(entry);
    }
  }

  // -------------------------------------------------------------------------- whole runs

  /** The log after serving every call in order. */
  function Served(calls: seq<Call>): seq<Entry> {
    if calls == [] then []
    else
      var log := Served(calls[..|calls| - 1]);
      var retained := FundReply(Window(log), calls[|calls| - 1]).retained;
      if retained.Some? then log + [retained.value] else log
  }

  lemma {:induction false} ServedIsCoherent(calls: seq<Call>)
    ensures Coherent(Window(Served(calls)), Served(calls))
  {
    if calls != [] {
      var log, c := Served(calls[..|calls| - 1]), calls[|calls| - 1];
      ServedIsCoherent(calls[..|calls| - 1]);
      if FundReply(Window(log), c).retained.Some? {
        FundKeepsCoherent(Window(log), log, c);
        WindowGrows(log, FundReply(Window(log), c).retained.value);
      }
    }
  }

  /** A request identical to a retained one gets the retained outcome again and never reaches the grant port. */
  lemma ReplayIsFree(calls: seq<Call>, c: Call, i: nat)
    requires ValidCall(c) && i < |Window(Served(calls))|
    requires Window(Served(calls))[i].requestId == c.requestId && Window(Served(calls))[i].recipient == c.recipient
    ensures FundReply(Window(Served(calls)), c)
         == Reply(RetainedResponse(Window(Served(calls))[i], true), None, false)
  {
    var window := Window(Served(calls));
    ServedIsCoherent(calls);
    var found := FindId(window, c.requestId).value;
    var j :| 0 <= j < |window| && window[j] == found;
    assert i == j;
  }

  /** The grant port is asked exactly for a well-formed request whose id and recipient are both not retained. */
  lemma GrantIffUnseen(receipts: seq<Receipt>, c: Call)
    ensures FundReply(receipts, c).asked <==>
            ValidCall(c) && forall i :: 0 <= i < |receipts| ==>
              receipts[i].requestId != c.requestId && receipts[i].recipient != c.recipient
  {
  }

  /** Entry `i` of the log is among the retained ones. */
  predicate Recent(log: seq<Entry>, i: int) {
    0 <= i < |log| && i >= |log| - 256
  }

  /** The answer about an outcome that is already known, to a request under its own id. */
  function Repeated(c: Call, outcome: Outcome): Response {
    match outcome
    case OutcomeUnknown => Unknown
    case Included(transaction, block) =>
      Settled(Receipt(c.requestId, c.recipient, Included(transaction, block)), true)
  }

  lemma RecentIsRetained(log: seq<Entry>, i: int)
    requires Recent(log, i)
    ensures
      var window := Window(log);
      |window| <= |log| && 0 <= i - (|log| - |window|) < |window| && window[i - (|log| - |window|)] == log[i].receipt
  {
  }

  lemma RetainedIsRecent(log: seq<Entry>, r: Receipt)
    requires r in Window(log)
    ensures exists i :: Recent(log, i) && log[i].receipt == r
  {
    var window := Window(log);
    var j :| 0 <= j < |window| && window[j] == r;
    assert Recent(log, j + |log| - |window|) && log[j + |log| - |window|].receipt == r;
  }

  lemma NothingRecent(log: seq<Entry>, c: Call)
    ensures FindId(Window(log), c.requestId).None? <==>
            forall i :: Recent(log, i) ==> log[i].receipt.requestId != c.requestId
    ensures FindRecipient(Window(log), c.recipient).None? <==>
            forall i :: Recent(log, i) ==> log[i].receipt.recipient != c.recipient
  {
    forall i | Recent(log, i) ensures log[i].receipt in Window(log) {
      RecentIsRetained(log, i);
    }
    forall r | r in Window(log) ensures exists i :: Recent(log, i) && log[i].receipt == r {
      RetainedIsRecent(log, r);
    }
  }

  lemma FindIdIs(log: seq<Entry>, i: int, id: string)
    requires UniqueIds(Window(log)) && Recent(log, i) && log[i].receipt.requestId == id
    ensures FindId(Window(log), id) == Some(log[i].receipt)
  {
    RecentIsRetained(log, i);
    var found := FindId(Window(log), id).value;
    var j :| 0 <= j < |Window(log)| && Window(log)[j] == found;
  }

  lemma FindRecipientIs(log: seq<Entry>, i: int, recipient: string)
    requires OneOutcome(Window(log)) && Recent(log, i) && log[i].receipt.recipient == recipient
    ensures FindRecipient(Window(log), recipient).Some?
    ensures FindRecipient(Window(log), recipient).value.outcome == log[i].receipt.outcome
  {
    RecentIsRetained(log, i);
    SharedOutcome(Window(log), FindRecipient(Window(log), recipient).value, i - (|log| - |Window(log)|));
  }

  /**
   A request whose id is recent is answered from that entry, or refused if it names another recipient.  A new id
   for a recent recipient gets that recipient's outcome and is remembered as an alias of it.  Neither asks.
   */
  lemma RecentAnswers(calls: seq<Call>, log: seq<Entry>, c: Call, i: int)
    requires log == Served(calls) && ValidCall(c) && Recent(log, i)
    ensures log[i].receipt.requestId == c.requestId ==>
              FundReply(Window(log), c) ==
              Reply(if log[i].receipt.recipient == c.recipient then Repeated(c, log[i].receipt.outcome)
                    else IdempotencyConflict, None, false)
    ensures log[i].receipt.recipient == c.recipient
            && (forall k :: Recent(log, k) ==> log[k].receipt.requestId != c.requestId) ==>
              FundReply(Window(log), c) ==
              Reply(Repeated(c, log[i].receipt.outcome),
                    Some(Entry(Receipt(c.requestId, c.recipient, log[i].receipt.outcome), false)), false)
  {
    ServedIsCoherent(calls);
    NothingRecent(log, c);
    if log[i].receipt.requestId == c.requestId {
      FindIdIs(log, i, c.requestId);
    }
    if log[i].receipt.recipient == c.recipient {
      FindRecipientIs(log, i, c.recipient);
    }
  }

  /** A request with a new id and a new recipient is answered, and remembered, by what the grant port says. */
  lemma UnseenAnswers(log: seq<Entry>, c: Call)
    requires ValidCall(c)
    requires forall i :: Recent(log, i) ==>
               log[i].receipt.requestId != c.requestId && log[i].receipt.recipient != c.recipient
    ensures
      var reply := FundReply(Window(log), c);
      && reply.asked
      && match c.answer
         case Granted(transaction, block) =>
           var receipt := Receipt(c.requestId, c.recipient, Included(transaction, block));
           reply.response == Settled(receipt, false) && reply.retained == Some(Entry(receipt, true))
         case Lost =>
           && reply.response == Unknown
           && reply.retained == Some(Entry(Receipt(c.requestId, c.recipient, OutcomeUnknown), true))
         case Refused(error) => reply.response == Failed(error) && reply.retained == None
  {
    NothingRecent(log, c);
  }

  /** How many entries of the log are grants to this recipient. */
  function Grants(log: seq<Entry>, recipient: string): nat {
    if log == [] then 0
    else
      var last := log[|log| - 1];
      Grants(log[..|log| - 1], recipient) + if last.granted && last.receipt.recipient == recipient then 1 else 0
  }

  lemma {:induction false} GrantsSkip(log: seq<Entry>, recipient: string, k: nat)
    requires k <= |log| && forall i :: k <= i < |log| ==> log[i].receipt.recipient != recipient
    ensures Grants(log, recipient) == Grants(log[..k], recipient)
  {
    if k < |log| {
      GrantsSkip(log[..|log| - 1], recipient, k);
      assert log[..|log| - 1][..k] == log[..k];
    } else {
      assert log[..k] == log;
    }
  }

  lemma {:induction false} SpacedBound(log: seq<Entry>, recipient: string)
    requires Spaced(log) && log != []
    ensures Grants(log, recipient) <= (|log| - 1) / (MAX_RECEIPTS + 1) + 1
    decreases |log|
  {
    var n := |log|;
    var front, last := log[..n - 1], log[n - 1];
    if !(last.granted && last.receipt.recipient == recipient) {
      if front != [] {
        SpacedBound(front, recipient);
      }
    } else {
      var k := if n <= MAX_RECEIPTS + 1 then 0 else n - 1 - MAX_RECEIPTS;
      GrantsSkip(front, recipient, k);
      if k > 0 {
        SpacedBound(front[..k], recipient);
        assert (k - 1) / (MAX_RECEIPTS + 1) + 1 == (n - 1) / (MAX_RECEIPTS + 1);
      }
    }
  }

  /** Between two grants to one recipient lie at least 256 retained receipts, the last 256 of them for others. */
  lemma GrantsAreApart(calls: seq<Call>, i: nat, j: nat)
    requires i < j < |Served(calls)| && Served(calls)[i].granted && Served(calls)[j].granted
    requires Served(calls)[i].receipt.recipient == Served(calls)[j].receipt.recipient
    ensures j - i > MAX_RECEIPTS
    ensures forall k :: j - MAX_RECEIPTS <= k < j ==>
              Served(calls)[k].receipt.recipient != Served(calls)[j].receipt.recipient
  {
    ServedIsCoherent(calls);
  }

  /** A log of n > 0 retained receipts holds at most (n-1)/257 + 1 grants to any one recipient. */
  lemma RateBound(calls: seq<Call>, recipient: string)
    requires Served(calls) != []
    ensures Grants(Served(calls), recipient) <= (|Served(calls)| - 1) / (MAX_RECEIPTS + 1) + 1
  {
    ServedIsCoherent(calls);
    SpacedBound(Served(calls), recipient);
  }
}
