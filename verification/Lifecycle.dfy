/**
 The life of one revocation record. Every repository call changes a record by a short sequence of
 labelled steps; `Enabled` is the guard under which the repository takes a step and `Next` is the
 record it leaves behind.
 */
module Lifecycle {
  import opened Text
  import opened Revocations

  /** What a claim fence is compared by: the token only as its digest. */
  datatype ClaimKey = ClaimKey(worker: string, tokenSHA256: string, epoch: int)

  datatype Label =
    | Authorize(now: Time, ttl: Duration)
    | Anchor(now: Time, protected: ProtectedReference)
    | Request(now: Time)
    | MarkActive(now: Time)
    | MarkNoCredential(now: Time)
    | Claim(now: Time, worker: string, lease: Duration, tokenSHA256: string)
    | Heartbeat(now: Time, key: ClaimKey, extension: Duration)
    | Complete(now: Time, key: ClaimKey)
    | Retry(now: Time, key: ClaimKey, delay: Duration, code: FailureCode, detailSHA256: string)
    | GiveUp(now: Time, key: ClaimKey, code: FailureCode, detailSHA256: string)
    | Exhaust(now: Time, detailSHA256: string)
    | Requeue(now: Time)
    | Confirm(now: Time, subject: string, evidence: string, admin: bool)

  // ---------------------------------------------------------------- guards

  predicate Exhausted(r: Record, now: Time) {
    || r.rev.attempt - r.cycleAttemptBase >= MaxRevocationAttempts
    || r.cycleStartedAt == Zero
    || r.cycleStartedAt + MaxRevocationElapsed <= now
  }

  predicate Claimable(r: Record, now: Time) {
    && ((r.rev.status == RevocationPending && r.rev.availableAt <= now)
        || (r.rev.status == Revoking && r.rev.claimExpiresAt <= now))
    && !Exhausted(r, now)
  }

  predicate Exhaustible(r: Record, now: Time) {
    && (r.rev.status == RevocationPending || (r.rev.status == Revoking && r.rev.claimExpiresAt <= now))
    && Exhausted(r, now)
  }

  predicate HoldsClaim(r: Record, key: ClaimKey, now: Time) {
    && r.rev.status == Revoking
    && r.rev.claimedBy == key.worker
    && r.rev.claimEpoch == key.epoch
    && r.claimTokenSHA256 == key.tokenSHA256
    && r.rev.claimExpiresAt > now
  }

  /** Go's `/` on durations truncates towards zero. */
  function WholeQuanta(remaining: Duration): Duration {
    if remaining >= 0 then remaining / VaultTTLQuantum * VaultTTLQuantum
    else -(-remaining / VaultTTLQuantum * VaultTTLQuantum)
  }

  function ChildTTLAt(r: Record, now: Time): Duration {
    WholeQuanta(r.rev.frozen.credentialExpiresAt - now - ChildCreateExpiryReserve)
  }

  predicate HasAdmin(confirmations: map<string, Confirmation>) {
    exists s :: s in confirmations && confirmations[s].platformAdmin
  }

  predicate Enabled(r: Record, l: Label) {
    match l
    case Authorize(now, ttl) =>
      r.rev.status == Prepared && r.childAuthorizedAt == Zero && ttl == ChildTTLAt(r, now) && ttl >= MinChildCreateTTL
    case Anchor(now, _) => r.rev.status == Prepared && r.childAuthorizedAt != Zero
    case Request(now) => r.rev.status == Anchored || r.rev.status == Active
    case MarkActive(now) => r.rev.status == Anchored
    case MarkNoCredential(now) =>
      && r.rev.status == Prepared
      && (r.childAuthorizedAt == Zero || r.rev.frozen.credentialExpiresAt + PreparedRecoveryGrace <= now)
    case Claim(now, worker, lease, tokenSHA256) =>
      && Claimable(r, now) && r.rev.claimEpoch < MaxInt64
      && ValidIdentifier(worker, 256) && ValidClaimDuration(lease) && ValidSHA256(tokenSHA256)
    case Heartbeat(now, key, extension) => HoldsClaim(r, key, now) && ValidClaimDuration(extension)
    case Complete(now, key) => HoldsClaim(r, key, now)
    case Retry(now, key, delay, code, detailSHA256) =>
      && HoldsClaim(r, key, now) && !Exhausted(r, now)
      && MinRevocationRetryDelay <= delay <= MaxRevocationRetryDelay
      && ValidFailureCode(code) && ValidSHA256(detailSHA256)
    case GiveUp(now, key, code, detailSHA256) =>
      HoldsClaim(r, key, now) && ValidFailureCode(code) && ValidSHA256(detailSHA256)
    case Exhaust(now, detailSHA256) => Exhaustible(r, now) && ValidSHA256(detailSHA256)
    case Requeue(now) =>
      r.rev.status == ManualRequired && r.rev.evidenceHash == "" && r.confirmations == map[]
    case Confirm(now, subject, evidence, admin) =>
      && r.rev.status == ManualRequired && ValidSHA256(evidence)
      && (r.rev.evidenceHash == "" || r.rev.evidenceHash == evidence)
      && subject !in r.confirmations
      && (|r.confirmations| >= 1 ==> admin || HasAdmin(r.confirmations))
  }

  // ---------------------------------------------------------------- effects

  function Bump(rev: Revocation, now: Time): Revocation {
    rev.(version := rev.version + 1, updatedAt := now)
  }

  function ClearClaim(r: Record): Record {
    r.(claimTokenSHA256 := "",
       rev := r.rev.(claimedBy := "", claimedAt := Zero, claimExpiresAt := Zero, lastHeartbeatAt := Zero))
  }

  function ClearReference(r: Record): Record {
    r.(protected := r.protected.(ciphertext := "", keyID := ""),
       rev := r.rev.(accessorPresent := false, encryptionKeyID := ""))
  }

  function Failed(r: Record, code: FailureCode, detailSHA256: string): Record {
    r.(rev := r.rev.(failureCount := r.rev.failureCount + 1, failureCode := code, failureDetailSHA256 := detailSHA256))
  }

  function Bumped(r: Record, now: Time): Record {
    r.(rev := Bump(r.rev, now))
  }

  function GivenUp(r: Record, now: Time, code: FailureCode, detailSHA256: string): Record {
    var manual := r.(rev := r.rev.(status := ManualRequired, manualRequiredAt := now));
    Bumped(ClearClaim(Failed(manual, code, detailSHA256)), now)
  }

  function Queued(r: Record, now: Time): Record {
    Bumped(r.(rev := r.rev.(status := RevocationPending, availableAt := now),
              cycleAttemptBase := r.rev.attempt, cycleStartedAt := now), now)
  }

  function Confirmed(r: Record, now: Time, subject: string, evidence: string, admin: bool): Record {
    Bumped(r.(confirmations := r.confirmations[subject := Confirmation(subject, evidence, admin, now)],
              rev := r.rev.(evidenceHash := evidence)), now)
  }

  function Next(r: Record, l: Label): Record {
    match l
    case Authorize(now, ttl) => Bumped(r.(childAuthorizedAt := now, childTTL := ttl), now)
    case Anchor(now, protected) =>
      Bumped(r.(protected := protected,
                rev := r.rev.(status := Anchored, accessorPresent := true, accessorHMAC := Hex(protected.accessorHMAC),
                              encryptionKeyID := protected.keyID, anchoredAt := now)), now)
    case Request(now) => Queued(r.(rev := r.rev.(revocationRequestedAt := now)), now)
    case MarkActive(now) => Bumped(r.(rev := r.rev.(status := Active, activatedAt := now)), now)
    case MarkNoCredential(now) => Bumped(r.(rev := r.rev.(status := NoCredential)), now)
    case Claim(now, worker, lease, tokenSHA256) =>
      Bumped(r.(claimTokenSHA256 := tokenSHA256,
                rev := r.rev.(status := Revoking, claimEpoch := r.rev.claimEpoch + 1, claimedBy := worker,
                              claimedAt := now, lastHeartbeatAt := now, claimExpiresAt := now + lease,
                              attempt := r.rev.attempt + 1)), now)
    case Heartbeat(now, _, extension) =>
      Bumped(r.(rev := r.rev.(lastHeartbeatAt := now, claimExpiresAt := now + extension)), now)
    case Complete(now, key) =>
      var done := r.(completedClaimSHA256 := key.tokenSHA256, completedClaimEpoch := key.epoch,
                     completedClaimWorker := key.worker,
                     rev := r.rev.(status := Revoked, revokedAt := now));
      Bumped(ClearReference(ClearClaim(done)), now)
    case Retry(now, _, delay, code, detailSHA256) =>
      var pending := r.(rev := r.rev.(status := RevocationPending, availableAt := now + delay));
      Bumped(ClearClaim(Failed(pending, code, detailSHA256)), now)
    case GiveUp(now, _, code, detailSHA256) => GivenUp(r, now, code, detailSHA256)
    case Exhaust(now, detailSHA256) => GivenUp(r, now, Unknown, detailSHA256)
    case Requeue(now) => Queued(r, now)
    case Confirm(now, subject, evidence, admin) =>
      var confirmed := Confirmed(r, now, subject, evidence, admin);
      if |confirmed.confirmations| >= 2
      then ClearReference(confirmed.(rev := confirmed.rev.(status := Revoked, revokedAt := now)))
      else confirmed
  }

  // ---------------------------------------------------------------- shape of reachable records

  predicate IdleClaim(r: Record) {
    && r.claimTokenSHA256 == "" && r.rev.claimedBy == ""
    && r.rev.claimedAt == Zero && r.rev.claimExpiresAt == Zero && r.rev.lastHeartbeatAt == Zero
  }

  predicate HeldClaim(r: Record) {
    && ValidSHA256(r.claimTokenSHA256) && ValidIdentifier(r.rev.claimedBy, 256)
    && ValidClaimDuration(r.rev.claimExpiresAt - r.rev.lastHeartbeatAt)
    && r.rev.lastHeartbeatAt == r.rev.updatedAt
  }

  predicate Unmanaged(r: Record) {
    && !r.rev.accessorPresent && r.protected == NoReference
    && r.rev.accessorHMAC == "" && r.rev.encryptionKeyID == ""
    && r.rev.anchoredAt == Zero && r.rev.activatedAt == Zero
  }

  predicate Managed(r: Record) {
    && r.rev.accessorPresent && r.rev.encryptionKeyID == r.protected.keyID
    && r.rev.accessorHMAC == Hex(r.protected.accessorHMAC)
    && r.rev.anchoredAt != Zero && r.childAuthorizedAt != Zero
  }

  predicate Released(r: Record) {
    && !r.rev.accessorPresent && r.rev.encryptionKeyID == ""
    && r.protected.ciphertext == "" && r.protected.keyID == ""
    && r.rev.accessorHMAC == Hex(r.protected.accessorHMAC)
    && r.rev.anchoredAt != Zero && r.childAuthorizedAt != Zero
  }

  predicate NotRequested(r: Record) {
    && r.rev.revocationRequestedAt == Zero && r.cycleStartedAt == Zero && r.cycleAttemptBase == 0
    && r.rev.attempt == 0 && r.rev.failureCount == 0 && r.rev.manualRequiredAt == Zero
  }

  predicate Requested(r: Record) {
    && r.rev.revocationRequestedAt != Zero && r.cycleStartedAt != Zero
    && 0 <= r.cycleAttemptBase && 0 <= CycleClaims(r) <= MaxRevocationAttempts
  }

  /** Claims taken so far in the current retry cycle. */
  function CycleClaims(r: Record): int {
    r.rev.attempt - r.cycleAttemptBase
  }

  predicate Unconfirmed(r: Record) {
    r.rev.evidenceHash == "" && r.confirmations == map[]
  }

  predicate OneEvidence(r: Record) {
    && ValidSHA256(r.rev.evidenceHash)
    && forall s | s in r.confirmations ::
         r.confirmations[s].subject == s && r.confirmations[s].evidenceHash == r.rev.evidenceHash
  }

  predicate NotCompleted(r: Record) {
    r.completedClaimSHA256 == "" && r.completedClaimEpoch == 0 && r.completedClaimWorker == ""
  }

  /** Finished by the current claim fence, and by nobody's confirmation. */
  predicate FencedCompletion(r: Record) {
    && r.completedClaimEpoch == r.rev.claimEpoch > 0
    && ValidSHA256(r.completedClaimSHA256) && ValidIdentifier(r.completedClaimWorker, 256)
    && Unconfirmed(r)
  }

  /** Finished by two people agreeing on one piece of evidence, one of them a platform admin. */
  predicate TwoPersonCompletion(r: Record) {
    && NotCompleted(r) && OneEvidence(r)
    && |r.confirmations| == 2 && HasAdmin(r.confirmations)
  }

  predicate ChildBudget(r: Record) {
    if r.childAuthorizedAt == Zero then r.childTTL == 0
    else
      && r.childTTL >= MinChildCreateTTL && r.childTTL % VaultTTLQuantum == 0
      && r.childAuthorizedAt + r.childTTL + ChildCreateExpiryReserve <= r.rev.frozen.credentialExpiresAt
      && r.rev.frozen.credentialExpiresAt < r.childAuthorizedAt + r.childTTL + ChildCreateExpiryReserve + VaultTTLQuantum
  }

  predicate FailureFields(r: Record) {
    if r.rev.failureCount == 0 then r.rev.failureCode == NoFailure && r.rev.failureDetailSHA256 == ""
    else r.rev.failureCount > 0 && ValidFailureCode(r.rev.failureCode) && ValidSHA256(r.rev.failureDetailSHA256)
  }

  predicate StatusShape(r: Record) {
    match r.rev.status
    case Prepared => Unmanaged(r) && NotRequested(r) && Unconfirmed(r) && NotCompleted(r)
    case NoCredential =>
      && Unmanaged(r) && NotRequested(r) && Unconfirmed(r) && NotCompleted(r)
      && (r.childAuthorizedAt == Zero || r.rev.frozen.credentialExpiresAt + PreparedRecoveryGrace <= r.rev.updatedAt)
    case Anchored =>
      Managed(r) && r.rev.activatedAt == Zero && NotRequested(r) && Unconfirmed(r) && NotCompleted(r)
    case Active =>
      Managed(r) && r.rev.activatedAt != Zero && NotRequested(r) && Unconfirmed(r) && NotCompleted(r)
    case RevocationPending =>
      && Managed(r) && Requested(r) && CycleClaims(r) < MaxRevocationAttempts
      && Unconfirmed(r) && NotCompleted(r)
    case Revoking =>
      Managed(r) && Requested(r) && CycleClaims(r) >= 1 && Unconfirmed(r) && NotCompleted(r)
    case ManualRequired =>
      && Managed(r) && Requested(r) && r.rev.manualRequiredAt != Zero && r.rev.failureCount > 0 && NotCompleted(r)
      && (Unconfirmed(r) || (OneEvidence(r) && |r.confirmations| == 1))
    case Revoked =>
      Released(r) && Requested(r) && (FencedCompletion(r) || TwoPersonCompletion(r))
  }

  /** Kept by every enabled step read at a non-zero clock, whatever the order of the readings. */
  predicate WellFormed(r: Record) {
    && r.rev.version >= 1
    && r.rev.claimEpoch == r.rev.attempt && 0 <= r.rev.claimEpoch <= MaxInt64
    && FailureFields(r)
    && ChildBudget(r)
    && (r.rev.status == Revoking <==> !IdleClaim(r))
    && (r.rev.status == Revoking ==> HeldClaim(r))
    && (r.rev.status == Revoked <==> r.rev.revokedAt != Zero)
    && StatusShape(r)
  }

  // ---------------------------------------------------------------- order of the timestamps

  predicate Between(low: Time, t: Time, high: Time) {
    t == Zero || low <= t <= high
  }

  /** Kept when no clock reading runs behind an earlier one. */
  predicate Chronological(r: Record) {
    var rev := r.rev;
    && 0 < rev.frozen.createdAt <= rev.updatedAt
    && Between(rev.frozen.createdAt, r.childAuthorizedAt, rev.updatedAt)
    && Between(r.childAuthorizedAt, rev.anchoredAt, rev.updatedAt)
    && Between(rev.anchoredAt, rev.activatedAt, rev.updatedAt)
    && Between(rev.anchoredAt, rev.revocationRequestedAt, rev.updatedAt)
    && (rev.revocationRequestedAt != Zero ==> rev.activatedAt <= rev.revocationRequestedAt)
    && Between(rev.revocationRequestedAt, r.cycleStartedAt, rev.updatedAt)
    && Between(rev.revocationRequestedAt, rev.manualRequiredAt, rev.updatedAt)
    && Between(r.cycleStartedAt, rev.claimedAt, rev.lastHeartbeatAt)
    && rev.lastHeartbeatAt <= rev.updatedAt
    && Between(rev.manualRequiredAt, rev.revokedAt, rev.updatedAt)
    && (rev.revokedAt != Zero ==> rev.revocationRequestedAt <= rev.revokedAt)
    && rev.frozen.createdAt <= rev.availableAt <= rev.updatedAt + MaxRevocationRetryDelay
    && (forall s | s in r.confirmations :: rev.manualRequiredAt <= r.confirmations[s].createdAt <= rev.updatedAt)
  }

  lemma StepKeepsWellFormed(r: Record, l: Label)
    requires WellFormed(r) && Enabled(r, l) && l.now != Zero
    ensures WellFormed(Next(r, l))
  {
    hide WellFormed, Enabled, Next;
    match l
    case Authorize(_, _) => AuthorizeKeepsWellFormed(r, l);
    case Confirm(_, _, _, _) => ConfirmKeepsWellFormed(r, l);
    case Claim(_, _, _, _) => ClaimKeepsWellFormed(r, l);
    case Heartbeat(_, _, _) => ClaimKeepsWellFormed(r, l);
    case Complete(_, _) => CompleteKeepsWellFormed(r, l);
    case Retry(_, _, _, _, _) => FailureKeepsWellFormed(r, l);
    case GiveUp(_, _, _, _) => FailureKeepsWellFormed(r, l);
    case Exhaust(_, _) => FailureKeepsWellFormed(r, l);
    case _ => LaunchKeepsWellFormed(r, l);
  }

  lemma LaunchKeepsWellFormed(r: Record, l: Label)
    requires WellFormed(r) && Enabled(r, l) && l.now != Zero
    requires l.Anchor? || l.Request? || l.MarkActive? || l.MarkNoCredential? || l.Requeue?
    ensures WellFormed(Next(r, l))
  {
  }

  lemma ClaimKeepsWellFormed(r: Record, l: Label)
    requires WellFormed(r) && Enabled(r, l) && l.now != Zero && (l.Claim? || l.Heartbeat?)
    ensures WellFormed(Next(r, l))
  {
  }

  lemma CompleteKeepsWellFormed(r: Record, l: Label)
    requires WellFormed(r) && Enabled(r, l) && l.now != Zero && l.Complete?
    ensures WellFormed(Next(r, l))
  {
  }

  lemma FailureKeepsWellFormed(r: Record, l: Label)
    requires WellFormed(r) && Enabled(r, l) && l.now != Zero && (l.Retry? || l.GiveUp? || l.Exhaust?)
    ensures WellFormed(Next(r, l))
  {
  }

  lemma AuthorizeKeepsWellFormed(r: Record, l: Label)
    requires WellFormed(r) && Enabled(r, l) && l.now != Zero && l.Authorize?
    ensures WellFormed(Next(r, l))
  {
    var remaining := r.rev.frozen.credentialExpiresAt - l.now - ChildCreateExpiryReserve;
    assert remaining >= 0;
    assert remaining == remaining / VaultTTLQuantum * VaultTTLQuantum + remaining % VaultTTLQuantum;
  }

  lemma ConfirmKeepsWellFormed(r: Record, l: Label)
    requires WellFormed(r) && Enabled(r, l) && l.now != Zero && l.Confirm?
    ensures WellFormed(Next(r, l))
  {
    var n := Next(r, l);
    assert |n.confirmations| == |r.confirmations| + 1;
    if |r.confirmations| >= 1 {
      if l.admin {
        assert l.subject in n.confirmations && n.confirmations[l.subject].platformAdmin;
      } else {
        var s :| s in r.confirmations && r.confirmations[s].platformAdmin;
        assert s in n.confirmations && n.confirmations[s].platformAdmin;
      }
    }
  }

  lemma StepKeepsChronological(r: Record, l: Label)
    requires WellFormed(r) && Chronological(r) && Enabled(r, l) && l.now >= r.rev.updatedAt
    ensures Chronological(Next(r, l))
  {
    hide WellFormed, Chronological, Enabled, Next;
    match l
    case Claim(_, _, _, _) => ClaimKeepsChronological(r, l);
    case Heartbeat(_, _, _) => ClaimKeepsChronological(r, l);
    case Retry(_, _, _, _, _) => FailureKeepsChronological(r, l);
    case GiveUp(_, _, _, _) => FailureKeepsChronological(r, l);
    case Exhaust(_, _) => FailureKeepsChronological(r, l);
    case Complete(_, _) => CompletionKeepsChronological(r, l);
    case Confirm(_, _, _, _) => CompletionKeepsChronological(r, l);
    case _ => LaunchKeepsChronological(r, l);
  }

  lemma LaunchKeepsChronological(r: Record, l: Label)
    requires WellFormed(r) && Chronological(r) && Enabled(r, l) && l.now >= r.rev.updatedAt
    requires l.Authorize? || l.Anchor? || l.Request? || l.MarkActive? || l.MarkNoCredential? || l.Requeue?
    ensures Chronological(Next(r, l))
  {
  }

  lemma ClaimKeepsChronological(r: Record, l: Label)
    requires WellFormed(r) && Chronological(r) && Enabled(r, l) && l.now >= r.rev.updatedAt
    requires l.Claim? || l.Heartbeat?
    ensures Chronological(Next(r, l))
  {
  }

  lemma FailureKeepsChronological(r: Record, l: Label)
    requires WellFormed(r) && Chronological(r) && Enabled(r, l) && l.now >= r.rev.updatedAt
    requires l.Retry? || l.GiveUp? || l.Exhaust?
    ensures Chronological(Next(r, l))
  {
  }

  lemma CompletionKeepsChronological(r: Record, l: Label)
    requires WellFormed(r) && Chronological(r) && Enabled(r, l) && l.now >= r.rev.updatedAt
    requires l.Complete? || l.Confirm?
    ensures Chronological(Next(r, l))
  {
  }

  /** Of two confirmations one is an administrator's, if the second is admitted only on that condition. */
  lemma AdminAmongTwo(confirmations: map<string, Confirmation>, subject: string, added: Confirmation)
    requires subject !in confirmations && |confirmations[subject := added]| >= 2
    requires |confirmations| >= 1 ==> added.platformAdmin || HasAdmin(confirmations)
    ensures HasAdmin(confirmations[subject := added])
  {
    var after := confirmations[subject := added];
    assert after.Keys == confirmations.Keys + {subject};
    if added.platformAdmin {
      assert after[subject].platformAdmin;
    } else {
      var s :| s in confirmations && confirmations[s].platformAdmin;
      assert s in after && after[s].platformAdmin;
    }
  }
}
