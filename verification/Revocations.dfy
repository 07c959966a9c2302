/**
 The credential revocation record: statuses, time constants and the data every repository call
 carries. A `Time` counts nanoseconds from the first instant of year 1, so `Zero` is Go's zero
 `time.Time` and `IsZero`, `After`, `Before` and `Equal` are integer comparisons.
 */
module Revocations {
  import opened Options
  import opened Text

  type Time = int
  type Duration = int

  const Zero: Time := 0
  const Microsecond: Duration := 1_000
  const Second: Duration := 1_000_000_000
  const Minute: Duration := 60 * Second

  const MinRevocationClaimLease: Duration := Second
  const MaxRevocationClaimLease: Duration := 30 * Second
  const MaxRevocationClaimBatch := 100
  const MinRevocationRetryDelay: Duration := 5 * Second
  const MaxRevocationRetryDelay: Duration := 15 * Minute
  const MaxRevocationAttempts := 12
  const MaxRevocationElapsed: Duration := 120 * Minute
  const ManagedAnchorRecoveryGrace: Duration := 2 * Minute
  const FailureDetailExhaustedWithoutAck := "credential.revocation.exhausted_without_ack.v1"
  const FailureDetailProtectedRefInvalid := "credential.revocation.protected_reference_invalid.v1"
  const MaxCredentialTTL: Duration := 15 * Minute
  const MinPrepareFenceWindow: Duration := Second
  const MinPostChildFenceWindow: Duration := Second
  const VaultChildCreateServerMaxDuration: Duration := 10 * Second
  const MaxChildCreateDBCommitLatency: Duration := Second
  const MaxChildCreateVaultIngressLatency: Duration := 2 * Second
  const MaxVaultAheadOfDatabaseClock: Duration := Second
  const VaultTTLQuantum: Duration := Second
  const ChildCreateExpiryReserve: Duration :=
    MaxChildCreateDBCommitLatency + MaxChildCreateVaultIngressLatency +
    VaultChildCreateServerMaxDuration + MaxVaultAheadOfDatabaseClock + VaultTTLQuantum
  const ChildCreateVaultCallBudget: Duration :=
    MaxChildCreateVaultIngressLatency + VaultChildCreateServerMaxDuration
  const MinChildCreateTTL: Duration := Second
  const PreparedRecoveryGrace: Duration := Minute
  const MaxInt64 := 0x7fff_ffff_ffff_ffff

  /** Microsecond precision, rounding towards the past. */
  function CanonicalCredentialExpiry(value: Time): (r: Time)
    ensures r <= value < r + Microsecond
    ensures r % Microsecond == 0
    ensures value % Microsecond == 0 ==> r == value
  {
    value - value % Microsecond
  }

  datatype Error =
    | InvalidRequest
    | NotFound
    | IdempotencyConflict
    | InvalidTransition
    | StaleActionFence
    | StaleClaim
    | EvidenceConflict
    | PlatformAdminRequired
    | ReferenceProtection
    | PersistenceFailed
    | AtomicActionSourceRequired
    | ChildCreateAlreadyAuthorized
    | ChildCreateWindowExpired
    | StaleChildCreatePermit
    | SourceFailed(reason: string)

  datatype Result<+T> = Ok(value: T) | Err(error: Error)

  datatype Status =
    | Prepared | Anchored | Active | RevocationPending | Revoking | Revoked | ManualRequired | NoCredential

  predicate Terminal(status: Status) {
    status == Revoked || status == NoCredential
  }

  /** The eight allow-listed codes; every other text, the empty one included, is `Other`. */
  datatype FailureCode =
    | IssuerUnavailable | RateLimited | Timeout | AuthenticationFailed | PermissionDenied
    | ReferenceMissing | InvalidReference | Unknown
    | Other(text: string)

  const NoFailure := Other("")

  predicate ValidFailureCode(code: FailureCode) {
    !code.Other?
  }

  predicate ValidFailure(code: FailureCode, detail: string) {
    ValidFailureCode(code) && 0 < |detail| <= 0x10_0000
  }

  // ---------------------------------------------------------------- actions and fences

  datatype ActionFence = ActionFence(actionID: string, runnerID: string, token: string, epoch: int)

  predicate ValidActionFence(fence: ActionFence) {
    && ValidIdentifier(fence.actionID, 256)
    && ValidIdentifier(fence.runnerID, 256)
    && ValidOpaqueText(fence.token, 4096)
    && fence.epoch > 0
  }

  /** The part of an action that a revocation copies and never changes. */
  datatype Scope = Scope(
    tenantID: string, workspaceID: string, environmentID: string, targetKey: string, production: bool,
    actionType: string, connectorID: string, permission: string, resource: string, ttlSeconds: int)

  datatype ActionStatus = Queued | Leased | Running

  /** The pool a runner is registered in; only the name WRITE matters. */
  datatype RunnerPool = WritePool | OtherPool(name: string)

  datatype Metadata = Metadata(
    actionID: string, scope: Scope, runnerID: string, leaseEpoch: int, status: ActionStatus,
    leaseExpiresAt: Time, authorizationExpiresAt: Time, cancelRequestedAt: Time,
    runnerEnabled: bool, runnerPool: RunnerPool, scopeRevision: int, runnerScopeRevision: int,
    exactScopeAuthorized: bool)

  datatype Inspection = Inspection(metadata: Metadata, leaseTokenSHA256: string)

  /**
   What `WithLockedActionInspection` did: either it never ran the callback, or it ran it once with
   an inspection and then returned its own error or none.
   */
  datatype Gate = Blocked(error: Error) | Admitted(inspection: Inspection, afterwards: Option<Error>)

  datatype ClaimFence = ClaimFence(revocationID: string, workerID: string, token: string, epoch: int)

  predicate ValidClaimFence(fence: ClaimFence) {
    && ValidUUID(fence.revocationID)
    && ValidIdentifier(fence.workerID, 256)
    && ValidOpaqueText(fence.token, 4096)
    && fence.epoch > 0
  }

  predicate ValidClaimDuration(duration: Duration) {
    MinRevocationClaimLease <= duration <= MaxRevocationClaimLease
  }

  // ---------------------------------------------------------------- the record

  /** Fields written once by Prepare. */
  datatype Frozen = Frozen(
    id: string, scope: Scope, actionID: string, runnerID: string, actionLeaseEpoch: int,
    issuer: string, issuerRevision: string, credentialExpiresAt: Time, createdAt: Time)

  datatype Revocation = Revocation(
    frozen: Frozen,
    status: Status,
    accessorPresent: bool, accessorHMAC: string, encryptionKeyID: string,
    claimEpoch: int, claimedBy: string, claimedAt: Time, claimExpiresAt: Time, lastHeartbeatAt: Time,
    attempt: int, failureCount: int, failureCode: FailureCode, failureDetailSHA256: string,
    availableAt: Time, evidenceHash: string, updatedAt: Time, anchoredAt: Time, activatedAt: Time,
    revocationRequestedAt: Time, manualRequiredAt: Time, revokedAt: Time, version: int)

  datatype ProtectedReference = ProtectedReference(ciphertext: string, accessorHMAC: string, keyID: string)

  const NoReference := ProtectedReference("", "", "")

  datatype Confirmation = Confirmation(subject: string, evidenceHash: string, platformAdmin: bool, createdAt: Time)

  datatype Record = Record(
    rev: Revocation,
    protected: ProtectedReference,
    actionTokenSHA256: string, permitSHA256: string,
    childAuthorizedAt: Time, childTTL: Duration,
    cycleAttemptBase: int, cycleStartedAt: Time,
    claimTokenSHA256: string,
    completedClaimSHA256: string, completedClaimEpoch: int, completedClaimWorker: string,
    confirmations: map<string, Confirmation>)
}
