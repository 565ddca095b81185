/** The durable record of one ledger-backed DID deployment and its guarded updates. */
module DidOperation {
  import opened Common

  datatype Phase =
    Composing | Funding | Proving | Submitting | Confirming | Resolving | Ready | RetryableFailure | OutcomeUnknown

  datatype Effect =
    DeployContract | InstallVerificationMethodVerifier | InstallJubjubVerifier | InstallRelationshipVerifier |
    AddAuthenticationMethod | AddAuthenticationRelationship | AddAssertionMethod | AddAssertionRelationship |
    ResolveDocument

  datatype Failure =
    CompositionUnavailable | ProtectionLocked | AccountUnavailable | FundingUnavailable | InsufficientDust |
    ProvingUnavailable | SubmissionRejected | ResolutionUnavailable | ResolutionMismatch | PersistenceUnavailable

  datatype Network = Undeployed | Devnet | Testnet | Mainnet | Preview | Preprod | Offchain

  datatype Did = Did(network: Network, text: string)

  datatype Receipt = Receipt(effect: Effect, submissionId: string, transaction: string, block: string, height: int)

  /** Inclusion evidence of the last completed effect. */
  datatype Inclusion = Inclusion(transaction: Option<string>, block: Option<string>, height: Option<int>)

  datatype Operation = Operation(
    id: string,
    profile: string,
    network: Network,
    state: Phase,
    resume: Option<Phase>,
    failure: Option<Failure>,
    effect: Effect,
    did: Option<Did>,
    submissionId: Option<string>,
    receipts: seq<Receipt>,
    inclusion: Inclusion,
    createdAt: int,
    updatedAt: int)

  const MAX_SUBMISSION_ID := 256
  const EFFECTS := 8

  /** The eight transactional effects in order, then the resolution. */
  function EffectAt(i: int): Effect {
    if i <= 0 then DeployContract
    else if i == 1 then InstallVerificationMethodVerifier
    else if i == 2 then InstallJubjubVerifier
    else if i == 3 then InstallRelationshipVerifier
    else if i == 4 then AddAuthenticationMethod
    else if i == 5 then AddAuthenticationRelationship
    else if i == 6 then AddAssertionMethod
    else if i == 7 then AddAssertionRelationship
    else ResolveDocument
  }

  /** How many transactional effects come before `e`. */
  function Ordinal(e: Effect): (n: int)
    ensures 0 <= n <= EFFECTS && EffectAt(n) == e
  {
    match e
    case DeployContract => 0
    case InstallVerificationMethodVerifier => 1
    case InstallJubjubVerifier => 2
    case InstallRelationshipVerifier => 3
    case AddAuthenticationMethod => 4
    case AddAuthenticationRelationship => 5
    case AddAssertionMethod => 6
    case AddAssertionRelationship => 7
    case ResolveDocument => 8
  }

  predicate IsTransaction(e: Effect) { e != ResolveDocument }

  function EffectName(e: Effect): string {
    match e
    case DeployContract => "deploy_contract"
    case InstallVerificationMethodVerifier => "install_verification_method_verifier"
    case InstallJubjubVerifier => "install_jubjub_verifier"
    case InstallRelationshipVerifier => "install_relationship_verifier"
    case AddAuthenticationMethod => "add_authentication_method"
    case AddAuthenticationRelationship => "add_authentication_relationship"
    case AddAssertionMethod => "add_assertion_method"
    case AddAssertionRelationship => "add_assertion_relationship"
    case ResolveDocument => "resolve_document"
  }

  /** `effect_submission_id` */
  function SubmissionId(id: string, e: Effect): string {
    id + "-" + EffectName(e)
  }

  // ------------------------------------------------------------------ guarded updates

  predicate ValidSubmissionId(s: string) { 0 < |s| <= MAX_SUBMISSION_ID }

  predicate IsLowerHex32(s: string) {
    |s| == 64 && forall i :: 0 <= i < |s| ==> '0' <= s[i] <= '9' || 'a' <= s[i] <= 'f'
  }

  function NewOperation(id: string, profile: string, network: Network, now: int): Option<Operation> {
    if network == Offchain || now == 0 then None
    else Some(Operation(id, profile, network, Composing, None, None, DeployContract, None, None, [],
                        Inclusion(None, None, None), now, now))
  }

  predicate ValidTransition(current: Phase, next: Phase, resume: Option<Phase>) {
    || current == next
    || (current == Composing && next == Funding)
    || (current == Funding && next == Proving)
    || (current == Proving && next == Submitting)
    || (current == Submitting && next == Confirming)
    || (current == Confirming && (next == Composing || next == Resolving))
    || (current == Resolving && next == Ready)
    || (current == RetryableFailure && resume == Some(next))
    || (current == OutcomeUnknown && next == Confirming)
  }

  function Transition(op: Operation, next: Phase, now: int): Option<Operation> {
    if now < op.updatedAt || !ValidTransition(op.state, next, op.resume) then None
    else
      var moved := op.(state := next, updatedAt := now);
      Some(if next == RetryableFailure || next == OutcomeUnknown then moved
           else moved.(resume := None, failure := None))
  }

  function Composed(op: Operation, did: Did, submissionId: string, now: int): Option<Operation> {
    if op.effect != DeployContract || op.state != Composing || did.network != op.network
       || !ValidSubmissionId(submissionId)
       || (op.did.Some? && op.did.value != did)
       || (op.submissionId.Some? && op.submissionId.value != submissionId)
    then None
    else Transition(op.(did := Some(did), submissionId := Some(submissionId)), Funding, now)
  }

  function PreparedEffect(op: Operation, submissionId: string, now: int): Option<Operation> {
    if op.state != Composing || !IsTransaction(op.effect) || op.effect == DeployContract
       || op.did.None? || op.submissionId.Some? || !ValidSubmissionId(submissionId)
    then None
    else Transition(op.(submissionId := Some(submissionId)), Funding, now)
  }

  function Paused(op: Operation, failure: Failure, now: int): Option<Operation> {
    if op.state in {Ready, RetryableFailure, OutcomeUnknown} || now < op.updatedAt then None
    else Some(op.(resume := Some(op.state), failure := Some(failure), state := RetryableFailure, updatedAt := now))
  }

  function Unknown(op: Operation, now: int): Option<Operation> {
    if op.state !in {Submitting, Confirming} || now < op.updatedAt then None
    else Some(op.(resume := Some(Confirming), failure := None, state := OutcomeUnknown, updatedAt := now))
  }

  function Included(op: Operation, transaction: string, block: string, height: int, now: int): Option<Operation> {
    if op.state !in {Confirming, OutcomeUnknown} || !IsLowerHex32(transaction) || !IsLowerHex32(block)
       || !IsTransaction(op.effect) || |op.receipts| >= EFFECTS || op.submissionId.None?
    then None
    else
      var receipt := Receipt(op.effect, op.submissionId.value, transaction, block, height);
      var effect := EffectAt(Ordinal(op.effect) + 1);
      Transition(op.(submissionId := None, receipts := op.receipts + [receipt], effect := effect,
                     inclusion := Inclusion(Some(transaction), Some(block), Some(height))),
                 if effect == ResolveDocument then Resolving else Composing, now)
  }

  // ----------------------------------------------------------------------- validation

  predicate ValidReceipt(r: Receipt) {
    ValidSubmissionId(r.submissionId) && IsLowerHex32(r.transaction) && IsLowerHex32(r.block)
  }

  /** `valid_receipt_prefix`, together with the bound on the number of receipts. */
  predicate ValidReceipts(receipts: seq<Receipt>, current: Effect) {
    && |receipts| <= EFFECTS
    && (forall i :: 0 <= i < |receipts| ==> receipts[i].effect == EffectAt(i))
    && EffectAt(|receipts|) == current
    && (forall i :: 0 <= i < |receipts| ==> ValidReceipt(receipts[i]))
  }

  predicate ValidInclusion(n: Inclusion) {
    && (n.transaction.Some? ==> IsLowerHex32(n.transaction.value))
    && (n.block.Some? ==> IsLowerHex32(n.block.value))
  }

  predicate HasInclusion(n: Inclusion) {
    n.transaction.Some? && n.block.Some? && n.height.Some?
  }

  predicate ValidPhase(op: Operation) {
    var quiet := op.resume.None? && op.failure.None?;
    var active := op.did.Some? && op.submissionId.Some?;
    match op.state
    case Composing =>
      if op.effect == DeployContract then
        op.did.None? && op.submissionId.None? && op.receipts == [] && !HasInclusion(op.inclusion) && quiet
      else
        op.effect != ResolveDocument && op.did.Some? && op.submissionId.None? && HasInclusion(op.inclusion) && quiet
    case Funding => active && quiet
    case Proving => active && quiet
    case Submitting => active && quiet
    case Confirming => active && quiet
    case Resolving => Completed(op) && quiet
    case Ready => Completed(op) && quiet
    case RetryableFailure => op.resume.Some? && op.failure.Some?
    case OutcomeUnknown => active && op.resume == Some(Confirming) && op.failure.None?
  }

  predicate Completed(op: Operation) {
    && op.effect == ResolveDocument && op.did.Some? && op.submissionId.None?
    && HasInclusion(op.inclusion) && |op.receipts| == EFFECTS
  }

  /** `validate`: what the repository checks of every record it stores. */
  predicate Valid(op: Operation) {
    && op.network != Offchain && op.createdAt != 0 && op.createdAt <= op.updatedAt
    && (op.did.Some? ==> op.did.value.network == op.network)
    && (op.submissionId.Some? ==> ValidSubmissionId(op.submissionId.value))
    && ValidInclusion(op.inclusion)
    && ValidReceipts(op.receipts, op.effect)
    && ValidPhase(op)
  }

  // ------------------------------------------------------------- what the updates keep

  /** The operation a retryable failure resumes as. */
  function Resumed(op: Operation): Operation
    requires op.resume.Some?
  {
    op.(state := op.resume.value, resume := None, failure := None)
  }

  /** The submission id, when one is set, and every receipt carry the deterministic id of their effect. */
  predicate Labelled(op: Operation) {
    && 0 < |op.id| <= 128
    && (op.submissionId.Some? ==> op.submissionId.value == SubmissionId(op.id, op.effect))
    && LabelledReceipts(op.id, op.receipts)
  }

  predicate LabelledReceipts(id: string, receipts: seq<Receipt>) {
    forall i :: 0 <= i < |receipts| ==> receipts[i].submissionId == SubmissionId(id, receipts[i].effect)
  }

  /** What every stored record satisfies beyond `Valid`. */
  predicate Produced(op: Operation) {
    && Valid(op) && Labelled(op) && op.state != Confirming
    && (op.state in {Funding, Proving, Submitting, OutcomeUnknown} ==> IsTransaction(op.effect))
    && (op.state == RetryableFailure ==> Resumable(op))
  }

  predicate Resumable(op: Operation)
    requires op.resume.Some?
  {
    var r := Resumed(op);
    && r.state in {Composing, Funding, Proving, Submitting, Resolving}
    && ValidPhase(r)
    && (r.state in {Funding, Proving, Submitting} ==> IsTransaction(op.effect))
  }

  /** No update of any operation, valid or not, replaces a DID or a submission id that is already recorded. */
  lemma RecordedStays(op: Operation, did: Did, id: string, now: int, q: Operation)
    requires Composed(op, did, id, now) == Some(q) || PreparedEffect(op, id, now) == Some(q)
    ensures op.did.Some? ==> q.did == op.did
    ensures op.submissionId.Some? ==> q.submissionId == op.submissionId
    ensures q.state == Funding && q.submissionId == Some(id) && q.receipts == op.receipts && q.effect == op.effect
  {
  }

  /** An unknown outcome waits for its confirmation: no update pauses it or takes it anywhere else. */
  lemma UnknownWaits(op: Operation, next: Phase, now: int)
    ensures op.state == OutcomeUnknown && Transition(op, next, now).Some? ==> next in {OutcomeUnknown, Confirming}
    ensures op.state == OutcomeUnknown ==> forall failure :: Paused(op, failure, now).None?
  {
  }

  lemma EffectNameLength(e: Effect)
    ensures 0 < |EffectName(e)| <= 36
  {
  }

  lemma SubmissionIdIsValid(id: string, e: Effect)
    requires |id| <= 128
    ensures ValidSubmissionId(SubmissionId(id, e))
  {
    EffectNameLength(e);
  }

  lemma NewIsProduced(id: string, profile: string, network: Network, now: int)
    requires NewOperation(id, profile, network, now).Some? && 0 < |id| <= 128
    ensures Produced(NewOperation(id, profile, network, now).value)
  {
  }

  lemma ComposedIsProduced(op: Operation, did: Did, now: int)
    requires Produced(op) && Composed(op, did, SubmissionId(op.id, op.effect), now).Some?
    ensures Produced(Composed(op, did, SubmissionId(op.id, op.effect), now).value)
  {
  }

  lemma PreparedIsProduced(op: Operation, now: int)
    requires Produced(op) && PreparedEffect(op, SubmissionId(op.id, op.effect), now).Some?
    ensures Produced(PreparedEffect(op, SubmissionId(op.id, op.effect), now).value)
  {
  }

  /** Moving on to Proving, Submitting or Ready keeps the record well formed. */
  lemma {:induction false} AdvanceIsProduced(op: Operation, next: Phase, now: int)
    requires Produced(op) && op.state != RetryableFailure && Transition(op, next, now).Some?
    requires next == Proving || next == Submitting || next == Ready
    ensures Produced(Transition(op, next, now).value)
  {
    var q := Transition(op, next, now).value;
    assert q == op.(state := next, updatedAt := now, resume := None, failure := None);
  }

  /** So does resuming from a pause. */
  lemma {:induction false} ResumeIsProduced(op: Operation, now: int)
    requires Produced(op) && op.state == RetryableFailure && Transition(op, op.resume.value, now).Some?
    ensures Produced(Transition(op, op.resume.value, now).value)
  {
    var q := Transition(op, op.resume.value, now).value;
    assert q == Resumed(op).(updatedAt := now);
  }

  lemma PausedIsProduced(op: Operation, failure: Failure, now: int)
    requires Produced(op) && Paused(op, failure, now).Some?
    ensures Produced(Paused(op, failure, now).value)
  {
  }

  lemma UnknownIsProduced(op: Operation, now: int)
    requires Produced(op) && Unknown(op, now).Some?
    ensures Produced(Unknown(op, now).value)
  {
  }

  lemma OrdinalCountsReceipts(receipts: seq<Receipt>, current: Effect)
    requires ValidReceipts(receipts, current)
    ensures Ordinal(current) == |receipts|
  {
  }

  lemma ReceiptsGrow(id: string, receipts: seq<Receipt>, current: Effect, r: Receipt)
    requires ValidReceipts(receipts, current) && LabelledReceipts(id, receipts) && IsTransaction(current)
    requires r.effect == current && r.submissionId == SubmissionId(id, current) && ValidReceipt(r)
    ensures ValidReceipts(receipts + [r], EffectAt(Ordinal(current) + 1)) && LabelledReceipts(id, receipts + [r])
  {
    OrdinalCountsReceipts(receipts, current);
    var longer := receipts + [r];
    assert forall i :: 0 <= i < |receipts| ==> longer[i] == receipts[i];
  }

  /** What inclusion leaves, field by field. */
  lemma {:induction false} IncludedFields(op: Operation, confirming: Operation, q: Operation,
                                          transaction: string, block: string, height: int, t: int, now: int)
    requires Transition(op, Confirming, t) == Some(confirming)
    requires Included(confirming, transaction, block, height, now) == Some(q)
    ensures op.submissionId.Some? && IsTransaction(op.effect) && now >= t >= op.updatedAt
    ensures IsLowerHex32(transaction) && IsLowerHex32(block)
    ensures
      var effect := EffectAt(Ordinal(op.effect) + 1);
      q == op.(submissionId := None, effect := effect, resume := None, failure := None, updatedAt := now,
               receipts := op.receipts + [Receipt(op.effect, op.submissionId.value, transaction, block, height)],
               inclusion := Inclusion(Some(transaction), Some(block), Some(height)),
               state := if effect == ResolveDocument then Resolving else Composing)
  {
  }

  /** Inclusion appends exactly one receipt, for the current effect, and moves on to the next effect. */
  lemma {:induction false} IncludedIsProduced(op: Operation, confirming: Operation, q: Operation,
                                              transaction: string, block: string, height: int, t: int, now: int)
    requires Produced(op) && op.state in {Submitting, OutcomeUnknown}
    requires Transition(op, Confirming, t) == Some(confirming)
    requires Included(confirming, transaction, block, height, now) == Some(q)
    ensures Produced(q) && q.id == op.id && Ordinal(q.effect) == Ordinal(op.effect) + 1
    ensures q.state in {Composing, Resolving} && q.updatedAt == now
    ensures q.receipts == op.receipts + [Receipt(op.effect, SubmissionId(op.id, op.effect), transaction, block, height)]
  {
    IncludedFields(op, confirming, q, transaction, block, height, t, now);
    var r := Receipt(op.effect, op.submissionId.value, transaction, block, height);
    ReceiptsGrow(op.id, op.receipts, op.effect, r);
    OrdinalCountsReceipts(op.receipts, op.effect);
    OrdinalCountsReceipts(q.receipts, q.effect);
  }
}
