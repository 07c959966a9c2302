/**
 The checks of the durable broker: how long a credential may live, and what the broker accepts as an answer of the
 repository, which it does not trust.
 */
module BrokerChecks {
  import opened Options
  import opened Text
  import opened Revocations
  import opened RepositoryModel

  datatype Selection = Selection(
    tenantID: string, workspaceID: string, environmentID: string, production: bool, actionType: string,
    connectorID: string, permission: string, resource: string)

  datatype DurableRequest = DurableRequest(
    fence: ActionFence, selection: Selection, requestedTTL: Duration, policyExpiresAt: Time)

  datatype Profile = Profile(issuerID: string, revision: string, credentialTTL: Duration)

  /** The child the issuer created; its material is empty if there is no token. */
  datatype Child = Child(material: string, expiresAt: Time)

  datatype DynamicSecret = DynamicSecret(material: string, expiresAt: Time)

  predicate ValidSelection(q: Selection) {
    && !q.production && ValidIdentifier(q.tenantID, 256) && ValidIdentifier(q.workspaceID, 256)
    && ValidIdentifier(q.environmentID, 256) && ValidIdentifier(q.actionType, 256)
    && ValidIdentifier(q.connectorID, 256) && ValidIdentifier(q.permission, 256) && ValidIdentifier(q.resource, 256)
  }

  predicate ValidWindow(q: DurableRequest) {
    && ChildCreateExpiryReserve + MinChildCreateTTL <= q.requestedTTL <= MaxCredentialTTL
    && q.requestedTTL % VaultTTLQuantum == 0 && q.policyExpiresAt != Zero
  }

  predicate ValidProfile(p: Profile) {
    && ValidIdentifier(p.issuerID, 256) && ValidIdentifier(p.revision, 256)
    && ChildCreateExpiryReserve + MinChildCreateTTL <= p.credentialTTL <= MaxCredentialTTL
    && p.credentialTTL % VaultTTLQuantum == 0
  }

  // ---------------------------------------------------------------- the credential deadline

  function Earlier(a: Time, b: Time): Time {
    if a < b then a else b
  }

  /** The earliest of the three limits. */
  function Limit(now: Time, q: DurableRequest, p: Profile): Time {
    Earlier(Earlier(now + p.credentialTTL, now + q.requestedTTL), q.policyExpiresAt)
  }

  /** Whole microseconds below the earliest limit, or nothing if too little time is left for a child. */
  method DurableCredentialExpiry(now: Time, q: DurableRequest, p: Profile) returns (expires: Option<Time>)
    ensures expires.Some? <==>
              && now != Zero && ValidWindow(q)
              && now + ChildCreateExpiryReserve + MinChildCreateTTL <= CanonicalCredentialExpiry(Limit(now, q, p))
    ensures expires.Some? ==> expires.value == CanonicalCredentialExpiry(Limit(now, q, p))
    ensures expires.Some? ==>
              && expires.value <= now + p.credentialTTL && expires.value <= now + q.requestedTTL
              && expires.value <= q.policyExpiresAt && expires.value % Microsecond == 0
              && now + ChildCreateExpiryReserve + MinChildCreateTTL <= expires.value
    ensures expires.Some? ==>
              forall t: Time | t % Microsecond == 0 && t <= now + p.credentialTTL && t <= now + q.requestedTTL && t <= q.policyExpiresAt ::
                t <= expires.value
  {
    if now == Zero || !ValidWindow(q) { return None; }
    var at := now + p.credentialTTL;
    var requested := now + q.requestedTTL;
    if requested < at { at := requested; }
    if q.policyExpiresAt < at { at := q.policyExpiresAt; }
    assert at == Limit(now, q, p);
    at := CanonicalCredentialExpiry(at);
    var minimum := now + ChildCreateExpiryReserve + MinChildCreateTTL;
    if at < minimum { return None; }
    forall t: Time | t % Microsecond == 0 && t <= Limit(now, q, p) ensures t <= at {
      NoWholeBetween(t, at, Limit(now, q, p));
    }
    return Some(at);
  }

  lemma NoWholeBetween(t: Time, canonical: Time, limit: Time)
    requires t % Microsecond == 0 && canonical % Microsecond == 0 && t <= limit && canonical <= limit < canonical + Microsecond
    ensures t <= canonical
  {
    assert t == Microsecond * (t / Microsecond) && canonical == Microsecond * (canonical / Microsecond);
  }

  // ---------------------------------------------------------------- accepted answers

  /** The scope an action must have for the request to describe it. */
  function Described(q: DurableRequest, targetKey: string): Scope {
    var s := q.selection;
    Scope(s.tenantID, s.workspaceID, s.environmentID, targetKey, s.production, s.actionType, s.connectorID,
          s.permission, s.resource, q.requestedTTL / Second)
  }

  predicate ValidFrozen(rev: Revocation, id: string, q: DurableRequest, p: Profile, expiresAt: Time, status: Status, accessorPresent: bool) {
    var f := rev.frozen;
    && f.id == id && f.actionID == q.fence.actionID && f.runnerID == q.fence.runnerID && f.actionLeaseEpoch == q.fence.epoch
    && f.scope == Described(q, f.scope.targetKey)
    && f.issuer == p.issuerID && f.issuerRevision == p.revision
    && f.credentialExpiresAt == expiresAt && rev.status == status && rev.accessorPresent == accessorPresent
    && ValidIdentifier(f.scope.tenantID, 256) && ValidOpaqueText(f.scope.targetKey, 1024)
    && rev.version >= 1 && f.createdAt != Zero && rev.updatedAt >= f.createdAt && rev.availableAt != Zero
    && f.credentialExpiresAt == CanonicalCredentialExpiry(f.credentialExpiresAt)
    && match status
       case Prepared => rev.anchoredAt == Zero && rev.activatedAt == Zero
       case NoCredential => rev.anchoredAt == Zero && rev.activatedAt == Zero
       case Anchored => rev.anchoredAt != Zero && rev.activatedAt == Zero && rev.updatedAt >= rev.anchoredAt
       case Active =>
         && rev.anchoredAt != Zero && rev.activatedAt != Zero
         && rev.activatedAt >= rev.anchoredAt && rev.updatedAt >= rev.activatedAt
       case _ => false
  }

  predicate ValidPrepared(result: PrepareResult, id: string, q: DurableRequest, p: Profile, expiresAt: Time) {
    && result.revocation.version == 1 && result.permit.Some? && result.permit.value.revocationID == id
    && ValidOpaqueText(result.permit.value.token, 4096)
    && ValidFrozen(result.revocation, id, q, p, expiresAt, Prepared, false)
  }

  predicate ValidAuthorization(a: ChildCreateAuthorization, prepared: Revocation, id: string, q: DurableRequest, p: Profile, expiresAt: Time) {
    && ValidFrozen(a.revocation, id, q, p, expiresAt, Prepared, false)
    && a.revocation.frozen == prepared.frozen && a.revocation.version == prepared.version + 1
    && a.databaseAuthorizedAt != Zero && a.credentialExpiresAt == expiresAt
    && a.revocation.updatedAt >= a.databaseAuthorizedAt
    && MinChildCreateTTL <= a.ttl <= MaxCredentialTTL && a.ttl % VaultTTLQuantum == 0
    && a.vaultCallBudget == ChildCreateVaultCallBudget
    && a.databaseAuthorizedAt + a.ttl + ChildCreateExpiryReserve <= expiresAt
  }

  predicate ValidChild(child: Child, a: ChildCreateAuthorization) {
    && child.material != "" && child.expiresAt != Zero && child.expiresAt == CanonicalCredentialExpiry(child.expiresAt)
    && child.expiresAt > a.databaseAuthorizedAt && child.expiresAt <= a.credentialExpiresAt
  }

  /** `validAnchoredResult` and `validActiveResult`: one step after the earlier answer, in the given status. */
  predicate ValidNext(rev: Revocation, earlier: Revocation, id: string, q: DurableRequest, p: Profile, expiresAt: Time, status: Status) {
    && ValidFrozen(rev, id, q, p, expiresAt, status, true)
    && rev.frozen == earlier.frozen && rev.version == earlier.version + 1
  }

  predicate ValidSecret(secret: DynamicSecret, a: ChildCreateAuthorization, childExpiresAt: Time, now: Time) {
    && secret.material != "" && now != Zero && secret.expiresAt != Zero
    && secret.expiresAt == CanonicalCredentialExpiry(secret.expiresAt) && secret.expiresAt > now
    && secret.expiresAt <= childExpiresAt && secret.expiresAt <= a.credentialExpiresAt
  }

  predicate ValidNoCredential(rev: Revocation, prepared: Revocation, id: string, q: DurableRequest, p: Profile, expiresAt: Time) {
    && ValidFrozen(rev, id, q, p, expiresAt, NoCredential, false)
    && rev.frozen == prepared.frozen && rev.version == prepared.version + 1
  }

  predicate ValidRequested(rev: Revocation, id: string, active: Revocation) {
    && rev.frozen.id == id && rev.frozen == active.frozen && rev.version > active.version
    && match rev.status
       case RevocationPending =>
         rev.accessorPresent && rev.revocationRequestedAt != Zero && rev.updatedAt >= rev.revocationRequestedAt
       case Revoking => rev.accessorPresent && rev.revocationRequestedAt != Zero && rev.updatedAt >= rev.revocationRequestedAt
       case ManualRequired =>
         && rev.accessorPresent && rev.revocationRequestedAt != Zero && rev.manualRequiredAt != Zero
         && rev.updatedAt >= rev.manualRequiredAt
       case Revoked =>
         !rev.accessorPresent && rev.revocationRequestedAt != Zero && rev.revokedAt != Zero && rev.updatedAt >= rev.revokedAt
       case _ => false
  }
}
