/**
 What each repository call does. A call carries everything the code would ask of its surroundings:
 clock readings, the action source's answers, the protector's answers and fresh tokens. `Moves` gives
 the steps a call takes on each record, `After` the store it leaves, and the `...Reply` functions what
 it returns. A call that holds the repository lock twice (`RecoverManaged`) is a series of
 `RecoverManagedOne` calls, one per locked section.
 */
module RepositoryModel {
  import opened Options
  import opened Text
  import opened Revocations
  import opened Lifecycle
  import opened LifecycleTraces
  import opened Ordering

  datatype Store = Store(records: map<string, Record>, epochs: map<string, string>)

  const EmptyStore := Store(map[], map[])

  datatype PrepareRequest = PrepareRequest(
    revocationID: string, fence: ActionFence, issuer: string, issuerRevision: string, credentialExpiresAt: Time)

  datatype Permit = Permit(revocationID: string, token: string)

  datatype PrepareResult = PrepareResult(revocation: Revocation, created: bool, permit: Option<Permit>)

  datatype ChildCreateAuthorization = ChildCreateAuthorization(
    revocation: Revocation, databaseAuthorizedAt: Time, credentialExpiresAt: Time, ttl: Duration, vaultCallBudget: Duration)

  datatype ClaimedRevocation = ClaimedRevocation(revocation: Revocation, fence: ClaimFence)

  datatype ConfirmationResult = ConfirmationResult(revocation: Revocation, confirmations: map<string, Confirmation>)

  /** Answers of the reference protector: `None` where it fails. */
  datatype Protector = Protector(protect: Option<ProtectedReference>, matches: Option<bool>)

  const NoFence := ActionFence("", "", "", 0)

  datatype Call =
    | Prepare(request: PrepareRequest, now: Time, first: Option<Metadata>, finalNow: Time, second: Option<Metadata>, permitToken: Option<string>)
    | AuthorizeChildCreate(permit: Permit, fence: ActionFence, gate: Gate, now: Time)
    | RecordAnchor(id: string, fence: ActionFence, accessorPresent: bool, gate: Gate, protector: Protector, now: Time, finalNow: Time)
    | Activate(id: string, fence: ActionFence, gate: Gate, now: Time, finalNow: Time)
    | RecordNoCredential(id: string, fence: ActionFence, metadata: Option<Metadata>, now: Time)
    | RecoverPrepared(limit: int, now: Time)
    | RecoverManagedOne(id: string, gate: Gate, now: Time)
    | RecoverExhausted(limit: int, now: Time)
    | RequestRevocation(id: string, fence: ActionFence, metadata: Option<Metadata>, now: Time)
    | ClaimRevocations(workerID: string, limit: int, lease: Duration, tokens: nat -> Option<string>, poison: string -> bool, now: Time)
    | HeartbeatClaim(claim: ClaimFence, extension: Duration, now: Time)
    | CompleteRevocation(claim: ClaimFence, now: Time)
    | RetryRevocation(claim: ClaimFence, delay: Duration, code: FailureCode, detail: string, now: Time)
    | RequireManual(claim: ClaimFence, code: FailureCode, detail: string, now: Time)
    | RequeueManual(id: string, actor: string, now: Time)
    | SubmitExternalConfirmation(id: string, subject: string, evidence: string, admin: bool, now: Time)

  /** The last clock reading of a call; `now` is the first. */
  function LastReading(c: Call): Time {
    match c
    case Prepare(_, _, _, finalNow, _, _) => finalNow
    case RecordAnchor(_, _, _, _, _, _, finalNow) => finalNow
    case Activate(_, _, _, _, finalNow) => finalNow
    case _ => c.now
  }

  // ---------------------------------------------------------------- action checks

  predicate ValidCredentialTTLSeconds(seconds: int) {
    0 < seconds && seconds * Second <= MaxCredentialTTL
  }

  /** `resolveAction`: `None` is an error of the source. */
  predicate Resolves(fence: ActionFence, answer: Option<Metadata>, now: Time): (b: bool)
    ensures b ==> answer.Some?
  {
    && answer.Some?
    && var m := answer.value;
    && m.actionID == fence.actionID && m.runnerID == fence.runnerID && m.leaseEpoch == fence.epoch
    && (m.status == Leased || m.status == Running)
    && m.leaseExpiresAt > now && m.authorizationExpiresAt > now
    && ValidIdentifier(m.scope.tenantID, 256) && ValidIdentifier(m.scope.workspaceID, 256)
    && ValidIdentifier(m.scope.environmentID, 256) && ValidIdentifier(m.scope.targetKey, 512)
    && ValidIdentifier(m.scope.actionType, 256) && ValidCredentialTTLSeconds(m.scope.ttlSeconds)
    && ValidOpaqueText(m.scope.connectorID, 256) && ValidOpaqueText(m.scope.permission, 256)
    && ValidOpaqueText(m.scope.resource, 2048)
  }

  predicate ResolvesForPrepare(fence: ActionFence, answer: Option<Metadata>, now: Time) {
    && Resolves(fence, answer, now)
    && answer.value.leaseExpiresAt >= now + MinPrepareFenceWindow
    && answer.value.authorizationExpiresAt >= now + MinPrepareFenceWindow
  }

  predicate FenceMatches(sha: Hash, r: Record, fence: ActionFence) {
    && r.rev.frozen.actionID == fence.actionID && r.rev.frozen.runnerID == fence.runnerID
    && r.rev.frozen.actionLeaseEpoch == fence.epoch && r.actionTokenSHA256 == sha(fence.token)
  }

  predicate ScopeMatches(r: Record, m: Metadata) {
    r.rev.frozen.actionID == m.actionID && r.rev.frozen.scope == m.scope
  }

  predicate RunnerAuthorizationCurrent(m: Metadata) {
    && m.runnerEnabled && m.runnerPool == WritePool && m.scopeRevision > 0
    && m.runnerScopeRevision == m.scopeRevision && m.exactScopeAuthorized
  }

  predicate FenceCurrent(r: Record, i: Inspection, now: Time, window: Duration) {
    var m := i.metadata;
    && RunnerAuthorizationCurrent(m) && m.status == Running && m.cancelRequestedAt == Zero
    && m.runnerID == r.rev.frozen.runnerID && m.leaseEpoch == r.rev.frozen.actionLeaseEpoch
    && i.leaseTokenSHA256 == r.actionTokenSHA256
    && m.leaseExpiresAt > now + window && m.authorizationExpiresAt > now + window
    && r.rev.frozen.credentialExpiresAt > now + window
  }

  // ---------------------------------------------------------------- Prepare

  function ActionEpochKey(actionID: string, epoch: int): string {
    actionID + [Nul] + Decimal(epoch)
  }

  function RecordKey(r: Record): string {
    ActionEpochKey(r.rev.frozen.actionID, r.rev.frozen.actionLeaseEpoch)
  }

  function SignedCredentialExpiry(now: Time, seconds: int): Time {
    CanonicalCredentialExpiry(now + seconds * Second)
  }

  /** Everything Prepare checks before it takes the lock. */
  function PrepareRefusal(c: Call): Option<Error>
    requires c.Prepare?
  {
    var q := c.request;
    var expires := CanonicalCredentialExpiry(q.credentialExpiresAt);
    if !ValidUUID(q.revocationID) || !ValidActionFence(q.fence) || !ValidOpaqueText(q.issuer, 256)
       || !ValidIdentifier(q.issuerRevision, 256) || expires == Zero || expires <= c.now
       || expires > CanonicalCredentialExpiry(c.now + MaxCredentialTTL) then Some(InvalidRequest)
    else if !ResolvesForPrepare(q.fence, c.first, c.now) then Some(StaleActionFence)
    else if c.first.value.scope.production then Some(InvalidRequest)
    else if expires > c.first.value.authorizationExpiresAt
         || expires > SignedCredentialExpiry(c.now, c.first.value.scope.ttlSeconds) then Some(InvalidRequest)
    else if !ResolvesForPrepare(q.fence, c.second, c.finalNow) then Some(StaleActionFence)
    else if c.first.value.scope != c.second.value.scope then Some(StaleActionFence)
    else if expires > c.second.value.authorizationExpiresAt
         || expires > SignedCredentialExpiry(c.finalNow, c.second.value.scope.ttlSeconds) then Some(StaleActionFence)
    else None
  }

  function FrozenBy(c: Call, m: Metadata): Frozen
    requires c.Prepare?
  {
    Frozen(c.request.revocationID, m.scope, m.actionID, m.runnerID, m.leaseEpoch, c.request.issuer,
           c.request.issuerRevision, CanonicalCredentialExpiry(c.request.credentialExpiresAt), c.now)
  }

  /** `samePrepare` and the token digest: the frozen fields agree, the identifier and creation time apart. */
  predicate SamePrepare(sha: Hash, r: Record, c: Call, m: Metadata)
    requires c.Prepare?
  {
    && r.rev.frozen == FrozenBy(c, m).(id := r.rev.frozen.id, createdAt := r.rev.frozen.createdAt)
    && r.actionTokenSHA256 == sha(c.request.fence.token)
  }

  function NewRecord(sha: Hash, c: Call, m: Metadata, token: string): Record
    requires c.Prepare?
  {
    Record(
      Revocation(FrozenBy(c, m), Prepared, false, "", "", 0, "", Zero, Zero, Zero, 0, 0, NoFailure, "",
                 c.now, "", c.now, Zero, Zero, Zero, Zero, Zero, 1),
      NoReference, sha(c.request.fence.token), sha(token), Zero, 0, 0, Zero, "", "", 0, "", map[])
  }

  datatype PrepareOutcome = Refused(error: Error) | Replayed(id: string) | Created(record: Record, token: string)

  function PrepareOutcomeOf(sha: Hash, s: Store, c: Call): PrepareOutcome
    requires c.Prepare?
  {
    if PrepareRefusal(c).Some? then Refused(PrepareRefusal(c).value)
    else
      var m := c.second.value;
      var id := c.request.revocationID;
      var key := ActionEpochKey(c.request.fence.actionID, c.request.fence.epoch);
      if key in s.epochs then
        var existing := s.epochs[key];
        if existing !in s.records || !SamePrepare(sha, s.records[existing], c, m) then Refused(IdempotencyConflict)
        else if id in s.records && id != existing then Refused(IdempotencyConflict)
        else Replayed(existing)
      else if id in s.records then
        if SamePrepare(sha, s.records[id], c, m) then Replayed(id) else Refused(IdempotencyConflict)
      else if c.permitToken.None? || !ValidOpaqueText(c.permitToken.value, 4096) then Refused(PersistenceFailed)
      else Created(NewRecord(sha, c, m, c.permitToken.value), c.permitToken.value)
  }

  function PrepareReply(sha: Hash, s: Store, c: Call): Result<PrepareResult>
    requires c.Prepare?
  {
    match PrepareOutcomeOf(sha, s, c)
    case Refused(error) => Err(error)
    case Replayed(id) =>
      if id in s.records then Ok(PrepareResult(s.records[id].rev, false, None)) else Err(IdempotencyConflict)
    case Created(record, token) =>
      Ok(PrepareResult(record.rev, true, Some(Permit(c.request.revocationID, token))))
  }

  // ---------------------------------------------------------------- calls on one record

  predicate OnOneRecord(c: Call) {
    !c.Prepare? && !c.RecoverPrepared? && !c.RecoverExhausted? && !c.ClaimRevocations?
  }

  function Target(c: Call): string
    requires OnOneRecord(c)
  {
    match c
    case AuthorizeChildCreate(permit, _, _, _) => permit.revocationID
    case HeartbeatClaim(claim, _, _) => claim.revocationID
    case CompleteRevocation(claim, _) => claim.revocationID
    case RetryRevocation(claim, _, _, _, _) => claim.revocationID
    case RequireManual(claim, _, _, _) => claim.revocationID
    case RecordAnchor(id, _, _, _, _, _, _) => id
    case Activate(id, _, _, _, _) => id
    case RecordNoCredential(id, _, _, _) => id
    case RecoverManagedOne(id, _, _) => id
    case RequestRevocation(id, _, _, _) => id
    case RequeueManual(id, _, _) => id
    case SubmitExternalConfirmation(id, _, _, _, _) => id
  }

  function Blocking(gate: Gate): Option<Error> {
    if gate.Blocked? then Some(gate.error) else None
  }

  /** Refusals decided before the record is looked up. */
  function Refusal(c: Call): Option<Error>
    requires OnOneRecord(c)
  {
    match c
    case AuthorizeChildCreate(permit, fence, gate, _) =>
      if !ValidUUID(permit.revocationID) || !ValidOpaqueText(permit.token, 4096) || !ValidActionFence(fence)
      then Some(InvalidRequest) else Blocking(gate)
    case RecordAnchor(id, fence, accessorPresent, gate, _, _, _) =>
      if !ValidUUID(id) || !ValidActionFence(fence) || !accessorPresent then Some(InvalidRequest) else Blocking(gate)
    case Activate(id, fence, gate, _, _) =>
      if !ValidUUID(id) || !ValidActionFence(fence) then Some(InvalidRequest) else Blocking(gate)
    case RecordNoCredential(id, fence, metadata, now) =>
      if !ValidUUID(id) || !ValidActionFence(fence) then Some(InvalidRequest)
      else if !Resolves(fence, metadata, now) then Some(StaleActionFence) else None
    case RecoverManagedOne(_, gate, _) => Blocking(gate)
    case RequestRevocation(id, fence, metadata, now) =>
      if fence == NoFence then if ValidUUID(id) then None else Some(InvalidRequest)
      else if !ValidUUID(id) || !ValidActionFence(fence) then Some(InvalidRequest)
      else if !Resolves(fence, metadata, now) then Some(StaleActionFence) else None
    case HeartbeatClaim(claim, extension, _) =>
      if ValidClaimFence(claim) && ValidClaimDuration(extension) then None else Some(InvalidRequest)
    case CompleteRevocation(claim, _) => if ValidClaimFence(claim) then None else Some(InvalidRequest)
    case RetryRevocation(claim, delay, code, detail, _) =>
      if delay < MinRevocationRetryDelay || delay > MaxRevocationRetryDelay || !ValidFailure(code, detail)
         || !ValidClaimFence(claim) then Some(InvalidRequest) else None
    case RequireManual(claim, code, detail, _) =>
      if !ValidFailure(code, detail) || !ValidClaimFence(claim) then Some(InvalidRequest) else None
    case RequeueManual(id, actor, _) =>
      if ValidUUID(id) && ValidSubject(actor) then None else Some(InvalidRequest)
    case SubmitExternalConfirmation(id, subject, evidence, _, _) =>
      if ValidUUID(id) && ValidSubject(subject) && ValidSHA256(evidence) then None else Some(InvalidRequest)
  }

  function KeyOf(sha: Hash, claim: ClaimFence): ClaimKey {
    ClaimKey(claim.workerID, sha(claim.token), claim.epoch)
  }

  /** `applyRequestRevocation`. */
  function RequestSteps(r: Record, now: Time): Result<seq<Label>> {
    match r.rev.status
    case Anchored => Ok([Request(now)])
    case Active => Ok([Request(now)])
    case Prepared => Err(InvalidTransition)
    case NoCredential => Err(InvalidTransition)
    case _ => Ok([])
  }

  /** Authorization once the fence is known to be current for long enough. */
  function AuthorizeWhen(r: Record, permitMatches: bool, now: Time): Result<seq<Label>> {
    if !permitMatches then Err(StaleChildCreatePermit)
    else if r.rev.status != Prepared || r.protected.ciphertext != "" then Err(InvalidTransition)
    else if r.childAuthorizedAt != Zero then Err(ChildCreateAlreadyAuthorized)
    else if ChildTTLAt(r, now) < MinChildCreateTTL then Err(ChildCreateWindowExpired)
    else Ok([Authorize(now, ChildTTLAt(r, now))])
  }

  function AuthorizeSteps(sha: Hash, r: Record, token: string, fence: ActionFence, i: Inspection, now: Time): Result<seq<Label>> {
    var minimumExpiry := now + ChildCreateExpiryReserve + MinPostChildFenceWindow;
    if !FenceMatches(sha, r, fence) || !ScopeMatches(r, i.metadata)
       || r.rev.frozen.credentialExpiresAt > i.metadata.authorizationExpiresAt
       || !FenceCurrent(r, i, now, 0)
       || i.metadata.leaseExpiresAt < minimumExpiry || i.metadata.authorizationExpiresAt < minimumExpiry
    then Err(StaleActionFence)
    else AuthorizeWhen(r, r.permitSHA256 == sha(token), now)
  }

  /** Anchoring once the fence is known to match; `current` says whether it still authorizes. */
  function AnchorWhen(r: Record, current: bool, p: Protector, last: Time): Result<seq<Label>> {
    if r.childAuthorizedAt == Zero then Err(InvalidTransition)
    else if r.rev.status != Prepared then
      if r.rev.status == NoCredential || r.rev.status == Revoked || r.protected.ciphertext == ""
      then Err(InvalidTransition)
      else if p.matches.None? then Err(ReferenceProtection)
      else if !p.matches.value then Err(IdempotencyConflict)
      else if Live(r) && !current then Ok([Request(last)])
      else Ok([])
    else if p.protect.None? then Err(ReferenceProtection)
    else if current then Ok([Anchor(last, p.protect.value)])
    else Ok([Anchor(last, p.protect.value), Request(last)])
  }

  function AnchorSteps(sha: Hash, r: Record, fence: ActionFence, i: Inspection, p: Protector, now: Time, last: Time): Result<seq<Label>> {
    if !FenceMatches(sha, r, fence) || !ScopeMatches(r, i.metadata) then Err(StaleActionFence)
    else AnchorWhen(r, FenceCurrent(r, i, now, 0) && FenceCurrent(r, i, last, MinPostChildFenceWindow), p, last)
  }

  /** Activation with the fence judged at the first reading and, with a margin, at the last. */
  function ActivateWhen(r: Record, current: bool, stillCurrent: bool, now: Time, last: Time): Result<seq<Label>> {
    match r.rev.status
    case Anchored =>
      if !current then Ok([Request(now)])
      else if stillCurrent then Ok([MarkActive(now)])
      else Ok([MarkActive(now), Request(last)])
    case Active => if stillCurrent then Ok([]) else Ok([Request(last)])
    case Prepared => Err(InvalidTransition)
    case NoCredential => Err(InvalidTransition)
    case _ => Ok([])
  }

  function ActivateSteps(sha: Hash, r: Record, fence: ActionFence, i: Inspection, now: Time, last: Time): Result<seq<Label>> {
    if !FenceMatches(sha, r, fence) || !ScopeMatches(r, i.metadata) then Err(StaleActionFence)
    else ActivateWhen(r, FenceCurrent(r, i, now, 0), FenceCurrent(r, i, last, MinPostChildFenceWindow), now, last)
  }

  function NoCredentialWhen(r: Record, now: Time): Result<seq<Label>> {
    match r.rev.status
    case Prepared => if r.childAuthorizedAt != Zero then Err(InvalidTransition) else Ok([MarkNoCredential(now)])
    case NoCredential => Ok([])
    case _ => Err(InvalidTransition)
  }

  function NoCredentialSteps(sha: Hash, r: Record, fence: ActionFence, m: Metadata, now: Time): Result<seq<Label>> {
    if !FenceMatches(sha, r, fence) || r.rev.frozen.scope != m.scope then Err(StaleActionFence) else NoCredentialWhen(r, now)
  }

  /** One candidate of RecoverManaged: queue it unless its action is still fit to hold the credential. */
  function RecoverManagedSteps(r: Record, i: Inspection, now: Time): Result<seq<Label>> {
    if !Live(r) then Ok([])
    else if ScopeMatches(r, i.metadata) && FenceCurrent(r, i, now, MinPostChildFenceWindow)
         && !(r.rev.status == Anchored && r.rev.anchoredAt + ManagedAnchorRecoveryGrace <= now) then Ok([])
    else Ok([Request(now)])
  }

  function ConfirmSteps(r: Record, subject: string, evidence: string, admin: bool, now: Time): Result<seq<Label>> {
    if r.rev.status != ManualRequired && r.rev.status != Revoked then Err(InvalidTransition)
    else if r.rev.evidenceHash != "" && r.rev.evidenceHash != evidence then Err(EvidenceConflict)
    else if subject in r.confirmations then
      if r.confirmations[subject].evidenceHash != evidence || r.confirmations[subject].platformAdmin != admin
      then Err(EvidenceConflict) else Ok([])
    else if r.rev.status == Revoked then Err(InvalidTransition)
    else if |r.confirmations| >= 1 && !admin && !HasAdmin(r.confirmations) then Err(PlatformAdminRequired)
    else Ok([Confirm(now, subject, evidence, admin)])
  }

  function HeartbeatSteps(r: Record, key: ClaimKey, extension: Duration, now: Time): Result<seq<Label>> {
    if HoldsClaim(r, key, now) then Ok([Heartbeat(now, key, extension)]) else Err(StaleClaim)
  }

  /** The completing fence may be replayed; any other fence on a revoked record is stale. */
  function CompleteSteps(r: Record, key: ClaimKey, now: Time): Result<seq<Label>> {
    if r.rev.status == Revoked then
      if ClaimKey(r.completedClaimWorker, r.completedClaimSHA256, r.completedClaimEpoch) == key then Ok([]) else Err(StaleClaim)
    else if HoldsClaim(r, key, now) then Ok([Complete(now, key)])
    else Err(StaleClaim)
  }

  function RetrySteps(r: Record, key: ClaimKey, delay: Duration, code: FailureCode, detailSHA256: string, now: Time): Result<seq<Label>> {
    if !HoldsClaim(r, key, now) then Err(StaleClaim)
    else if Exhausted(r, now) then Ok([GiveUp(now, key, code, detailSHA256)])
    else Ok([Retry(now, key, delay, code, detailSHA256)])
  }

  function ManualSteps(r: Record, key: ClaimKey, code: FailureCode, detailSHA256: string, now: Time): Result<seq<Label>> {
    if HoldsClaim(r, key, now) then Ok([GiveUp(now, key, code, detailSHA256)]) else Err(StaleClaim)
  }

  function RequeueSteps(r: Record, now: Time): Result<seq<Label>> {
    if r.rev.status == RevocationPending then Ok([])
    else if r.rev.status != ManualRequired || r.rev.evidenceHash != "" || |r.confirmations| != 0 then Err(InvalidTransition)
    else Ok([Requeue(now)])
  }

  /** Calls that present the action's fence. */
  predicate ActionCall(c: Call) {
    c.AuthorizeChildCreate? || c.RecordAnchor? || c.Activate? || c.RecordNoCredential?
  }

  function ActionSteps(sha: Hash, r: Record, c: Call): Result<seq<Label>>
    requires ActionCall(c)
  {
    match c
    case AuthorizeChildCreate(permit, fence, gate, now) =>
      if gate.Blocked? then Err(gate.error) else AuthorizeSteps(sha, r, permit.token, fence, gate.inspection, now)
    case RecordAnchor(_, fence, _, gate, protector, now, finalNow) =>
      if gate.Blocked? then Err(gate.error) else AnchorSteps(sha, r, fence, gate.inspection, protector, now, finalNow)
    case Activate(_, fence, gate, now, finalNow) =>
      if gate.Blocked? then Err(gate.error) else ActivateSteps(sha, r, fence, gate.inspection, now, finalNow)
    case RecordNoCredential(_, fence, metadata, now) =>
      if metadata.None? then Err(StaleActionFence) else NoCredentialSteps(sha, r, fence, metadata.value, now)
  }

  /** Calls that present a claim fence. */
  predicate ClaimCall(c: Call) {
    c.HeartbeatClaim? || c.CompleteRevocation? || c.RetryRevocation? || c.RequireManual?
  }

  function WorkerSteps(sha: Hash, r: Record, c: Call): Result<seq<Label>>
    requires ClaimCall(c)
  {
    match c
    case HeartbeatClaim(claim, extension, now) => HeartbeatSteps(r, KeyOf(sha, claim), extension, now)
    case CompleteRevocation(claim, now) => CompleteSteps(r, KeyOf(sha, claim), now)
    case RetryRevocation(claim, delay, code, detail, now) => RetrySteps(r, KeyOf(sha, claim), delay, code, sha(detail), now)
    case RequireManual(claim, code, detail, now) => ManualSteps(r, KeyOf(sha, claim), code, sha(detail), now)
  }

  /** Calls of the system itself or of a human operator. */
  predicate OperatorCall(c: Call) {
    c.RecoverManagedOne? || c.RequestRevocation? || c.RequeueManual? || c.SubmitExternalConfirmation?
  }

  function OperatorSteps(sha: Hash, r: Record, c: Call): Result<seq<Label>>
    requires OperatorCall(c)
  {
    match c
    case RecoverManagedOne(_, gate, now) =>
      if gate.Blocked? then Err(gate.error) else RecoverManagedSteps(r, gate.inspection, now)
    case RequestRevocation(_, fence, metadata, now) =>
      if fence == NoFence then RequestSteps(r, now)
      else if metadata.None? || !FenceMatches(sha, r, fence) || r.rev.frozen.scope != metadata.value.scope then Err(StaleActionFence)
      else RequestSteps(r, now)
    case RequeueManual(_, _, now) => RequeueSteps(r, now)
    case SubmitExternalConfirmation(_, subject, evidence, admin, now) => ConfirmSteps(r, subject, evidence, admin, now)
  }

  /** The steps a call takes on the record it found, or the error it returns. */
  function Steps(sha: Hash, r: Record, c: Call): Result<seq<Label>>
    requires OnOneRecord(c)
  {
    if ActionCall(c) then ActionSteps(sha, r, c)
    else if ClaimCall(c) then WorkerSteps(sha, r, c)
    else OperatorSteps(sha, r, c)
  }

  /** The whole decision on a one-record call: refusal, missing record, or the record's own answer. */
  function Decision(sha: Hash, s: Store, c: Call): Result<seq<Label>>
    requires OnOneRecord(c)
  {
    if Refusal(c).Some? then Err(Refusal(c).value)
    else if Target(c) !in s.records then Err(NotFound)
    else Steps(sha, s.records[Target(c)], c)
  }

  /** An error the action source adds after the callback has committed. */
  function Afterwards(c: Call): Option<Error> {
    match c
    case AuthorizeChildCreate(_, _, gate, _) => if gate.Admitted? then gate.afterwards else None
    case RecordAnchor(_, _, _, gate, _, _, _) => if gate.Admitted? then gate.afterwards else None
    case Activate(_, _, gate, _, _) => if gate.Admitted? then gate.afterwards else None
    case RecoverManagedOne(_, gate, _) => if gate.Admitted? then gate.afterwards else None
    case _ => None
  }

  /** The record a successful one-record call answers with. */
  function AnsweredRecord(sha: Hash, s: Store, c: Call): Result<Record>
    requires OnOneRecord(c)
  {
    match Decision(sha, s, c)
    case Err(error) => Err(error)
    case Ok(ls) =>
      if Afterwards(c).Some? then Err(Afterwards(c).value) else Ok(Play(s.records[Target(c)], ls))
  }

  function RevocationReply(sha: Hash, s: Store, c: Call): Result<Revocation>
    requires OnOneRecord(c)
  {
    match AnsweredRecord(sha, s, c) case Err(error) => Err(error) case Ok(r) => Ok(r.rev)
  }

  function AuthorizeReply(sha: Hash, s: Store, c: Call): Result<ChildCreateAuthorization>
    requires c.AuthorizeChildCreate?
  {
    match AnsweredRecord(sha, s, c)
    case Err(error) => Err(error)
    case Ok(r) =>
      Ok(ChildCreateAuthorization(r.rev, c.now, r.rev.frozen.credentialExpiresAt, r.childTTL, ChildCreateVaultCallBudget))
  }

  function ConfirmReply(sha: Hash, s: Store, c: Call): Result<ConfirmationResult>
    requires c.SubmitExternalConfirmation?
  {
    match AnsweredRecord(sha, s, c)
    case Err(error) => Err(error)
    case Ok(r) => Ok(ConfirmationResult(r.rev, r.confirmations))
  }

  // ---------------------------------------------------------------- batches

  predicate Sweep(c: Call) {
    c.RecoverPrepared? || c.RecoverExhausted? || c.ClaimRevocations?
  }

  predicate ValidSweep(c: Call)
    requires Sweep(c)
  {
    && 1 <= c.limit <= MaxRevocationClaimBatch
    && (c.ClaimRevocations? ==> ValidIdentifier(c.workerID, 256) && ValidClaimDuration(c.lease))
  }

  predicate Eligible(r: Record, c: Call)
    requires Sweep(c)
  {
    match c
    case RecoverPrepared(_, now) =>
      && r.rev.status == Prepared && r.protected.ciphertext == ""
      && r.rev.frozen.credentialExpiresAt + PreparedRecoveryGrace <= now
    case RecoverExhausted(_, now) => Exhaustible(r, now)
    case ClaimRevocations(_, _, _, _, _, now) => Claimable(r, now)
  }

  function OrderOf(id: string, r: Record, c: Call): (k: SortKey)
    requires Sweep(c)
    ensures k.id == id
  {
    match c
    case RecoverPrepared(_, _) => SortKey(r.rev.frozen.credentialExpiresAt, Zero, id)
    case RecoverExhausted(_, _) => SortKey(r.rev.revocationRequestedAt, Zero, id)
    case ClaimRevocations(_, _, _, _, _, _) => SortKey(r.rev.availableAt, r.rev.frozen.createdAt, id)
  }

  function EligibleKeys(s: Store, c: Call): set<SortKey>
    requires Sweep(c)
  {
    set id | id in s.records && Eligible(s.records[id], c) :: OrderOf(id, s.records[id], c)
  }

  ghost function Chosen(s: Store, c: Call): (chosen: seq<SortKey>)
    requires Sweep(c)
    ensures forall k | k in chosen ::
              k.id in s.records && Eligible(s.records[k.id], c) && k == OrderOf(k.id, s.records[k.id], c)
  {
    if ValidSweep(c) then Batch(EligibleKeys(s, c), c.limit) else []
  }

  predicate Named(s: Store, chosen: seq<SortKey>) {
    forall k | k in chosen :: k.id in s.records
  }

  /** The first candidate, from position i on, that cannot be claimed. */
  function ClaimRefusal(s: Store, c: Call, chosen: seq<SortKey>, i: nat): Option<Error>
    requires c.ClaimRevocations? && i <= |chosen|
    requires Named(s, chosen)
    decreases |chosen| - i
  {
    if i == |chosen| then None
    else if s.records[chosen[i].id].rev.claimEpoch == MaxInt64 then Some(InvalidTransition)
    else if c.tokens(i).None? || !ValidOpaqueText(c.tokens(i).value, 4096) then Some(InvalidRequest)
    else ClaimRefusal(s, c, chosen, i + 1)
  }

  function ClaimSteps(sha: Hash, r: Record, id: string, c: Call, token: string): seq<Label>
    requires c.ClaimRevocations?
  {
    var claim := Claim(c.now, c.workerID, c.lease, sha(token));
    if c.poison(id)
    then [claim, GiveUp(c.now, ClaimKey(c.workerID, sha(token), r.rev.claimEpoch + 1), InvalidReference, sha(FailureDetailProtectedRefInvalid))]
    else [claim]
  }

  /** What a sweep does to the record it chose at position i. */
  function SweepSteps(sha: Hash, r: Record, id: string, c: Call, i: nat): seq<Label>
    requires Sweep(c) && (c.ClaimRevocations? ==> c.tokens(i).Some?)
  {
    match c
    case RecoverPrepared(_, now) => [MarkNoCredential(now)]
    case RecoverExhausted(_, now) => [Exhaust(now, sha(FailureDetailExhaustedWithoutAck))]
    case ClaimRevocations(_, _, _, _, _, _) => ClaimSteps(sha, r, id, c, c.tokens(i).value)
  }

  ghost predicate SweepCommits(s: Store, c: Call)
    requires Sweep(c)
  {
    c.ClaimRevocations? ==> ClaimRefusal(s, c, Chosen(s, c), 0).None?
  }

  lemma {:induction false} CommitHasTokens(s: Store, c: Call, chosen: seq<SortKey>, i: nat, j: nat)
    requires c.ClaimRevocations? && i <= j < |chosen|
    requires Named(s, chosen)
    requires ClaimRefusal(s, c, chosen, i).None?
    ensures c.tokens(j).Some? && ValidOpaqueText(c.tokens(j).value, 4096)
    ensures s.records[chosen[j].id].rev.claimEpoch != MaxInt64
    decreases j - i
  {
    if i < j { CommitHasTokens(s, c, chosen, i + 1, j); }
  }

  lemma CommitHasAllTokens(s: Store, c: Call, chosen: seq<SortKey>)
    requires c.ClaimRevocations?
    requires Named(s, chosen)
    requires ClaimRefusal(s, c, chosen, 0).None?
    ensures forall i | 0 <= i < |chosen| ::
              && c.tokens(i).Some? && ValidOpaqueText(c.tokens(i).value, 4096)
              && s.records[chosen[i].id].rev.claimEpoch != MaxInt64
  {
    forall i | 0 <= i < |chosen|
      ensures c.tokens(i).Some? && ValidOpaqueText(c.tokens(i).value, 4096)
      ensures s.records[chosen[i].id].rev.claimEpoch != MaxInt64
    {
      CommitHasTokens(s, c, chosen, 0, i);
    }
  }

  /** Position of a record in the chosen batch, if it is there. */
  function Position(chosen: seq<SortKey>, id: string): (p: Option<nat>)
    ensures p.Some? ==> p.value < |chosen| && chosen[p.value].id == id
    ensures p.None? ==> forall k | k in chosen :: k.id != id
  {
    if |chosen| == 0 then None
    else if chosen[|chosen| - 1].id == id then Some(|chosen| - 1)
    else Position(chosen[..|chosen| - 1], id)
  }

  ghost function SweepMoves(sha: Hash, s: Store, c: Call, id: string): seq<Label>
    requires Sweep(c) && id in s.records
  {
    var p := Position(Chosen(s, c), id);
    if p.Some? && SweepCommits(s, c) then
      assert c.ClaimRevocations? ==> c.tokens(p.value).Some? by {
        if c.ClaimRevocations? { CommitHasTokens(s, c, Chosen(s, c), 0, p.value); }
      }
      SweepSteps(sha, s.records[id], id, c, p.value)
    else []
  }

  // ---------------------------------------------------------------- the store after a call

  ghost function Moves(sha: Hash, s: Store, c: Call, id: string): seq<Label>
    requires id in s.records
  {
    if c.Prepare? then []
    else if Sweep(c) then SweepMoves(sha, s, c, id)
    else if id == Target(c) && Decision(sha, s, c).Ok? then Decision(sha, s, c).value
    else []
  }

  ghost function Moved(sha: Hash, s: Store, c: Call): map<string, Record> {
    map id | id in s.records :: Play(s.records[id], Moves(sha, s, c, id))
  }

  ghost function After(sha: Hash, s: Store, c: Call): Store {
    if c.Prepare? then
      match PrepareOutcomeOf(sha, s, c)
      case Created(record, _) =>
        Store(s.records[c.request.revocationID := record],
              s.epochs[ActionEpochKey(c.request.fence.actionID, c.request.fence.epoch) := c.request.revocationID])
      case _ => s
    else Store(Moved(sha, s, c), s.epochs)
  }

  ghost function Run(sha: Hash, s: Store, cs: seq<Call>): Store
    decreases |cs|
  {
    if |cs| == 0 then s else Run(sha, After(sha, s, cs[0]), cs[1..])
  }

  // ---------------------------------------------------------------- replies of the sweeps

  /** The revocations returned for the first n candidates, in batch order. */
  ghost function RecoveredFrom(sha: Hash, s: Store, c: Call, chosen: seq<SortKey>, n: nat): seq<Revocation>
    requires Sweep(c) && !c.ClaimRevocations? && n <= |chosen|
    requires Named(s, chosen)
  {
    if n == 0 then []
    else
      var id := chosen[n - 1].id;
      RecoveredFrom(sha, s, c, chosen, n - 1) + [Play(s.records[id], SweepSteps(sha, s.records[id], id, c, n - 1)).rev]
  }

  ghost function SweepReply(sha: Hash, s: Store, c: Call): Result<seq<Revocation>>
    requires Sweep(c) && !c.ClaimRevocations?
  {
    if !ValidSweep(c) then Err(InvalidRequest)
    else Ok(RecoveredFrom(sha, s, c, Chosen(s, c), |Chosen(s, c)|))
  }

  /** The claim handed out for one candidate: none if its reference did not open. */
  function IssuedClaim(sha: Hash, r: Record, id: string, c: Call, token: string): seq<ClaimedRevocation>
    requires c.ClaimRevocations?
  {
    var claimed := Play(r, ClaimSteps(sha, r, id, c, token)).rev;
    if c.poison(id) then [] else [ClaimedRevocation(claimed, ClaimFence(id, c.workerID, token, claimed.claimEpoch))]
  }

  ghost predicate ClaimsSupplied(c: Call, n: nat)
    requires c.ClaimRevocations?
  {
    forall i | 0 <= i < n :: c.tokens(i).Some?
  }

  /** The claims handed out for the first n candidates, in batch order. */
  ghost function ClaimsFrom(sha: Hash, s: Store, c: Call, chosen: seq<SortKey>, n: nat): seq<ClaimedRevocation>
    requires c.ClaimRevocations? && n <= |chosen|
    requires Named(s, chosen)
    requires ClaimsSupplied(c, n)
  {
    if n == 0 then []
    else
      var id := chosen[n - 1].id;
      ClaimsFrom(sha, s, c, chosen, n - 1) + IssuedClaim(sha, s.records[id], id, c, c.tokens(n - 1).value)
  }

  ghost function ClaimReply(sha: Hash, s: Store, c: Call): Result<seq<ClaimedRevocation>>
    requires c.ClaimRevocations?
  {
    if !ValidSweep(c) then Err(InvalidRequest)
    else
      var chosen := Chosen(s, c);
      var refusal := ClaimRefusal(s, c, chosen, 0);
      if refusal.Some? then Err(refusal.value)
      else
        CommitHasAllTokens(s, c, chosen);
        Ok(ClaimsFrom(sha, s, c, chosen, |chosen|))
  }
}
