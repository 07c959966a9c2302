/**
 What a run of the durable broker carries along and what it leaves to its surroundings: the material it must not lose,
 the prepared credential, and the script of answers. `Honest` scripts are those under which a credential is owed.
 */
module DurableScripts {
  import opened Options
  import opened Text
  import opened Revocations
  import opened Lifecycle
  import opened LifecycleTraces
  import opened Management
  import opened RepositoryModel
  import opened RepositoryRuns
  import opened BrokerChecks
  import opened BrokerAgreement
  import opened BrokerReplies
  import opened IssuanceSafety

  datatype BrokerError = InvalidDurableRequest | StateError | IssuanceError | Canceled

  datatype Outcome<+T> = Done(value: T) | Failed(error: BrokerError)

  // ---------------------------------------------------------------- sensitive material

  datatype Material = Absent | Held | Destroyed

  function Destroy(m: Material): Material {
    if m == Held then Destroyed else m
  }

  datatype Custody = Custody(token: Material, accessor: Material, secret: Material)

  const NoCustody := Custody(Absent, Absent, Absent)

  function DestroyChild(c: Custody): Custody {
    c.(token := Destroy(c.token), accessor := Destroy(c.accessor))
  }

  function DestroySecret(c: Custody): Custody {
    c.(secret := Destroy(c.secret))
  }

  predicate NothingHeld(c: Custody) {
    c.token != Held && c.accessor != Held && c.secret != Held
  }

  // ---------------------------------------------------------------- handles

  datatype Phase = Ready | Issuing | WithoutCredential

  datatype PreparedCredential = PreparedCredential(
    request: DurableRequest, profile: Profile, prepared: Revocation, permit: Permit, revocationID: string, expiresAt: Time)

  predicate WithinLimits(p: PreparedCredential, now: Time) {
    p.expiresAt <= now + p.request.requestedTTL && p.expiresAt <= now + p.profile.credentialTTL && p.expiresAt <= p.request.policyExpiresAt
  }

  // ---------------------------------------------------------------- scripts

  /** Everything `Issue` does not decide itself. `others(k)` are the calls that slip in before its k-th repository call. */
  datatype Script = Script(
    canceled: nat -> bool, managerValid: bool, createContext: bool,
    authorizeGate: Gate, authorizeNow: Time,
    child: Child, accessor: bool, accessorValid: bool, childCreated: bool,
    anchorContext: bool, anchorGate: Gate, protector: Protector, anchorNow: Time, anchorLast: Time,
    inspected: bool,
    dynamic: DynamicSecret, dynamicIssued: bool, dynamicNow: Time,
    activateContext: bool, activateGate: Gate, activateNow: Time, activateLast: Time,
    intentContext: bool, intentNow: Time,
    others: nat -> seq<Call>)

  /** What the repository's Prepare asks of its surroundings. */
  datatype PrepareScript = PrepareScript(
    now: Time, first: Option<Metadata>, finalNow: Time, second: Option<Metadata>, permitToken: Option<string>)

  function PrepareCall(q: DurableRequest, p: Profile, id: string, expiresAt: Time, x: PrepareScript): Call {
    Call.Prepare(PrepareRequest(id, q.fence, p.issuerID, p.revision, expiresAt), x.now, x.first, x.finalNow, x.second, x.permitToken)
  }

  /** The clock is set, and nobody else holds the action's fence; others may present any fence they like. */
  ghost predicate Fair(sha: Hash, key: FenceKey, x: Script, id: string) {
    && x.authorizeNow != Zero && x.anchorNow != Zero && x.anchorLast != Zero
    && x.activateNow != Zero && x.activateLast != Zero && x.intentNow != Zero
    && forall k :: Foreign(sha, key, x.others(k), id)
  }

  /** The answers a run saw, and the store its activation found. */
  datatype Trail = Trail(authorized: ChildCreateAuthorization, anchored: Revocation, before: Store)

  // ---------------------------------------------------------------- the broker's calls

  function AuthorizeCall(held: PreparedCredential, x: Script): Call {
    AuthorizeChildCreate(held.permit, held.request.fence, x.authorizeGate, x.authorizeNow)
  }

  function AnchorCall(held: PreparedCredential, x: Script): Call {
    RecordAnchor(held.revocationID, held.request.fence, x.accessorValid, x.anchorGate, x.protector, x.anchorNow, x.anchorLast)
  }

  function ActivateCall(held: PreparedCredential, x: Script): Call {
    Activate(held.revocationID, held.request.fence, x.activateGate, x.activateNow, x.activateLast)
  }

  // ---------------------------------------------------------------- honest surroundings

  /** What `consumePrepared` looks for in a handle before it gives the credential away. */
  predicate Intact(held: PreparedCredential, id: string) {
    && held.prepared.frozen.id == id && held.permit.revocationID == id && held.revocationID == id
    && ValidOpaqueText(held.permit.token, 4096) && held.expiresAt != Zero && ValidProfile(held.profile)
  }

  /** The record is as the broker's Prepare left it, and the handle holds its permit and fence. */
  ghost predicate Pristine(sha: Hash, r: Record, held: PreparedCredential) {
    && Newborn(r) && Chronological(r) && PrepareFormat(r.rev.frozen)
    && Bound(r.rev.frozen, held.revocationID, held.request, held.profile, held.expiresAt)
    && r.rev == held.prepared && r.permitSHA256 == sha(held.permit.token)
    && Shown(sha, held.request.fence) == HeldBy(r) && Intact(held, held.revocationID)
  }

  function AuthorizedAs(r: Record, x: Script): Record {
    Next(r, Authorize(x.authorizeNow, ChildTTLAt(r, x.authorizeNow)))
  }

  function AnchoredAs(r: Record, x: Script): Record
    requires x.protector.protect.Some?
  {
    Next(AuthorizedAs(r, x), Anchor(x.anchorLast, x.protector.protect.value))
  }

  function Grant(r: Record, x: Script): ChildCreateAuthorization {
    AuthorizationFor(AuthorizedAs(r, x), x.authorizeNow)
  }

  /** One clock that never runs backwards. */
  predicate OneClock(r: Record, x: Script) {
    r.rev.updatedAt <= x.authorizeNow <= x.anchorNow <= x.anchorLast <= x.activateNow <= x.activateLast
  }

  /** The fence stays current for all three calls. */
  predicate FenceStays(sha: Hash, r: Record, held: PreparedCredential, x: Script) {
    && MayAuthorize(sha, r, AuthorizeCall(held, x))
    && MayProceed(sha, r, AnchorCall(held, x)) && MayProceed(sha, r, ActivateCall(held, x))
  }

  /** The issuer creates, shows and uses a child within the grant; accessor and protector work. */
  predicate IssuerHonest(r: Record, x: Script) {
    && x.managerValid && x.accessor && x.accessorValid && x.childCreated && x.inspected && x.dynamicIssued
    && x.protector.protect.Some? && ValidChild(x.child, Grant(r, x))
    && ValidSecret(x.dynamic, Grant(r, x), x.child.expiresAt, x.dynamicNow)
  }

  /** Nobody cancels, contexts can be made, and others keep away from the record. */
  ghost predicate Undisturbed(r: Record, x: Script, id: string) {
    && (forall k :: !x.canceled(k)) && x.createContext && x.anchorContext && x.activateContext
    && forall k, c | c in x.others(k) :: Aloof(c, id, r.rev.frozen.credentialExpiresAt)
  }

  ghost predicate Honest(sha: Hash, r: Record, held: PreparedCredential, x: Script) {
    OneClock(r, x) && FenceStays(sha, r, held, x) && IssuerHonest(r, x) && Undisturbed(r, x, held.revocationID)
  }

  /** A credential is owed. */
  ghost predicate Owed(sha: Hash, r: Record, held: PreparedCredential, x: Script) {
    Pristine(sha, r, held) && Honest(sha, r, held, x)
  }

  lemma OwedToAuthorize(sha: Hash, r: Record, held: PreparedCredential, x: Script)
    requires Owed(sha, r, held, x)
    ensures var c := AuthorizeCall(held, x);
            && c.AuthorizeChildCreate? && c.permit.revocationID == held.revocationID && c.now == x.authorizeNow
            && r.rev.updatedAt <= c.now && MayAuthorize(sha, r, c)
            && AuthorizedAs(r, x) == Next(r, Authorize(c.now, ChildTTLAt(r, c.now)))
            && Grant(r, x) == AuthorizationFor(AuthorizedAs(r, x), c.now)
    ensures Newborn(r) && Chronological(r) && PrepareFormat(r.rev.frozen) && r.rev == held.prepared
    ensures Bound(r.rev.frozen, held.revocationID, held.request, held.profile, held.expiresAt)
  {
    hide Newborn, Chronological, PrepareFormat, Bound, MayAuthorize, MayProceed, IssuerHonest, Undisturbed, Next, ValidOpaqueText, ValidProfile,
         ChildTTLAt, HeldBy;
  }

  lemma OwedAuthorization(sha: Hash, s: Store, r: Record, held: PreparedCredential, x: Script, c: Call)
    requires Owed(sha, r, held, x) && Consistent(s) && held.revocationID in s.records && s.records[held.revocationID] == r
    requires c == AuthorizeCall(held, x)
    ensures held.revocationID in After(sha, s, c).records && After(sha, s, c).records[held.revocationID] == AuthorizedAs(r, x)
    ensures c.AuthorizeChildCreate? && AuthorizeReply(sha, s, c) == Ok(Grant(r, x))
    ensures ValidAuthorization(Grant(r, x), held.prepared, held.revocationID, held.request, held.profile, held.expiresAt)
  {
    hide *;
    OwedToAuthorize(sha, r, held, x);
    AuthorizationIsGranted(sha, s, c, held.revocationID, held.request, held.profile, held.expiresAt);
  }

  /** What later calls of the broker ask of the record depends only on what Prepare froze. */
  lemma StillProceeds(sha: Hash, r: Record, ls: seq<Label>, c: Call)
    requires c.RecordAnchor? || c.Activate?
    ensures MayProceed(sha, Play(r, ls), c) == MayProceed(sha, r, c)
  {
    hide Play, ValidActionFence, FenceCurrent;
    VersionCountsSteps(r, ls);
    if c.gate.Admitted? {
      SameFence(r, ls, c.gate.inspection, c.now, 0);
      SameFence(r, ls, c.gate.inspection, c.finalNow, MinPostChildFenceWindow);
    }
  }

  lemma AuthorizedStands(r: Record, x: Script)
    requires Newborn(r) && Chronological(r) && r.rev.updatedAt <= x.authorizeNow
    requires Enabled(r, Authorize(x.authorizeNow, ChildTTLAt(r, x.authorizeNow)))
    ensures var a := AuthorizedAs(r, x);
            && Chronological(a) && a.rev.status == Prepared && a.childAuthorizedAt == x.authorizeNow != Zero
            && a.rev.frozen == r.rev.frozen && a.rev.updatedAt == x.authorizeNow
            && Play(r, [Authorize(x.authorizeNow, ChildTTLAt(r, x.authorizeNow))]) == a
  {
    var l := Authorize(x.authorizeNow, ChildTTLAt(r, x.authorizeNow));
    NewbornShape(r);
    ClockAhead(r);
    hide Newborn, WellFormed, Chronological, Play, ChildTTLAt;
    StepKeepsChronological(r, l);
    PlaySteps(r, l, l);
  }

  lemma OwedToAnchor(sha: Hash, r: Record, held: PreparedCredential, x: Script)
    requires Owed(sha, r, held, x)
    ensures var c, a := AnchorCall(held, x), AuthorizedAs(r, x);
            && c.RecordAnchor? && OnOneRecord(c) && c.id == held.revocationID && c.protector == x.protector && c.finalNow == x.anchorLast
            && c.accessorPresent && c.protector.protect.Some? && MayProceed(sha, a, c)
            && Chronological(a) && a.rev.status == Prepared && a.childAuthorizedAt != Zero && a.rev.updatedAt <= c.finalNow
            && a.rev.frozen == r.rev.frozen && a.rev.updatedAt == x.authorizeNow
            && Bound(a.rev.frozen, held.revocationID, held.request, held.profile, held.expiresAt)
            && AnchoredAs(r, x) == Next(a, Anchor(c.finalNow, c.protector.protect.value))
  {
    hide *;
    OwedToAuthorize(sha, r, held, x);
    AuthorizeStepsGranted(sha, r, AuthorizeCall(held, x));
    OwedProceeds(sha, r, held, x);
    AuthorizedStands(r, x);
    StillProceeds(sha, r, [Authorize(x.authorizeNow, ChildTTLAt(r, x.authorizeNow))], AnchorCall(held, x));
  }

  /** The calls the broker makes after the authorization, and when it makes them. */
  lemma OwedProceeds(sha: Hash, r: Record, held: PreparedCredential, x: Script)
    requires Owed(sha, r, held, x)
    ensures x.protector.protect.Some? && r.rev.updatedAt <= x.authorizeNow <= x.anchorLast <= x.activateNow <= x.activateLast
    ensures AnchoredAs(r, x) == Next(AuthorizedAs(r, x), Anchor(x.anchorLast, x.protector.protect.value))
    ensures var c := AnchorCall(held, x);
            && c.RecordAnchor? && OnOneRecord(c) && c.id == held.revocationID && c.protector == x.protector && c.finalNow == x.anchorLast
            && c.accessorPresent && MayProceed(sha, r, c)
    ensures var c := ActivateCall(held, x);
            && c.Activate? && OnOneRecord(c) && c.id == held.revocationID && c.now == x.activateNow && c.finalNow == x.activateLast
            && MayProceed(sha, r, c)
  {
    hide Pristine, Undisturbed, MayAuthorize, MayProceed, ValidChild, ValidSecret, Grant, Next, AuthorizedAs;
  }

  lemma OwedAnchor(sha: Hash, s: Store, r: Record, held: PreparedCredential, x: Script, c: Call)
    requires Owed(sha, r, held, x) && Consistent(s) && held.revocationID in s.records
    requires s.records[held.revocationID] == AuthorizedAs(r, x) && c == AnchorCall(held, x)
    ensures x.protector.protect.Some? && held.revocationID in After(sha, s, c).records
    ensures After(sha, s, c).records[held.revocationID] == AnchoredAs(r, x)
    ensures OnOneRecord(c) && RevocationReply(sha, s, c) == Ok(AnchoredAs(r, x).rev)
    ensures ValidNext(AnchoredAs(r, x).rev, AuthorizedAs(r, x).rev, held.revocationID, held.request, held.profile, held.expiresAt, Anchored)
  {
    hide *;
    OwedToAnchor(sha, r, held, x);
    AnchorIsGranted(sha, s, c, held.revocationID, held.request, held.profile, held.expiresAt);
  }

  lemma AnchoredStands(sha: Hash, a: Record, l: Label)
    requires l.Anchor? && WellFormed(a) && Chronological(a) && a.rev.status == Prepared && a.childAuthorizedAt != Zero
    requires a.rev.updatedAt <= l.now
    ensures var b := Next(a, l);
            Chronological(b) && b.rev.status == Anchored && b.rev.updatedAt == l.now && b.rev.frozen == a.rev.frozen && Play(a, [l]) == b
  {
    ClockAhead(a);
    hide WellFormed, Chronological, Play;
    StepKeepsChronological(a, l);
    PlaySteps(a, l, l);
  }

  lemma OwedToActivate(sha: Hash, r: Record, held: PreparedCredential, x: Script)
    requires Owed(sha, r, held, x) && x.protector.protect.Some? && WellFormed(AuthorizedAs(r, x))
    ensures var c, b := ActivateCall(held, x), AnchoredAs(r, x);
            && c.Activate? && OnOneRecord(c) && c.id == held.revocationID && MayProceed(sha, b, c)
            && Chronological(b) && b.rev.status == Anchored && b.rev.updatedAt <= c.now <= c.finalNow
            && Bound(b.rev.frozen, held.revocationID, held.request, held.profile, held.expiresAt)
            && b.rev.frozen == r.rev.frozen
  {
    hide *;
    OwedToAuthorize(sha, r, held, x);
    AuthorizeStepsGranted(sha, r, AuthorizeCall(held, x));
    OwedToAnchor(sha, r, held, x);
    OwedProceeds(sha, r, held, x);
    AuthorizedStands(r, x);
    var a, l := AuthorizedAs(r, x), Anchor(x.anchorLast, x.protector.protect.value);
    StillProceeds(sha, r, [Authorize(x.authorizeNow, ChildTTLAt(r, x.authorizeNow))], ActivateCall(held, x));
    StillProceeds(sha, a, [l], ActivateCall(held, x));
    AnchoredStands(sha, a, l);
  }

  lemma AuthorizedWellFormed(sha: Hash, r: Record, held: PreparedCredential, x: Script)
    requires Owed(sha, r, held, x)
    ensures WellFormed(AuthorizedAs(r, x))
  {
    OwedToAuthorize(sha, r, held, x);
    AuthorizeStepsGranted(sha, r, AuthorizeCall(held, x));
    NewbornShape(r);
    ClockAhead(r);
    hide Owed, Newborn, WellFormed, Enabled, Next, MayAuthorize, ChildTTLAt, Chronological;
    StepKeepsWellFormed(r, Authorize(x.authorizeNow, ChildTTLAt(r, x.authorizeNow)));
  }

  lemma OwedActivation(sha: Hash, s: Store, r: Record, held: PreparedCredential, x: Script, c: Call)
    requires Owed(sha, r, held, x) && Consistent(s) && held.revocationID in s.records && x.protector.protect.Some?
    requires s.records[held.revocationID] == AnchoredAs(r, x) && c == ActivateCall(held, x)
    ensures OnOneRecord(c) && RevocationReply(sha, s, c).Ok?
    ensures ValidNext(RevocationReply(sha, s, c).value, AnchoredAs(r, x).rev, held.revocationID, held.request, held.profile, held.expiresAt, Active)
  {
    hide *;
    AuthorizedWellFormed(sha, r, held, x);
    OwedToActivate(sha, r, held, x);
    ActivationIsGranted(sha, s, c, held.revocationID, held.request, held.profile, held.expiresAt);
  }

  /** None of the broker's own checks stops an honest run. */
  lemma OwedChecks(sha: Hash, r: Record, held: PreparedCredential, x: Script)
    requires Owed(sha, r, held, x)
    ensures x.managerValid && x.createContext && x.accessor && x.anchorContext && x.childCreated && x.inspected
    ensures x.dynamicIssued && x.activateContext && (forall k :: !x.canceled(k)) && Intact(held, held.revocationID)
    ensures ValidChild(x.child, Grant(r, x)) && ValidSecret(x.dynamic, Grant(r, x), x.child.expiresAt, x.dynamicNow)
    ensures forall k, c | c in x.others(k) :: Aloof(c, held.revocationID, r.rev.frozen.credentialExpiresAt)
  {
    hide FenceStays, OneClock, Newborn, Chronological, PrepareFormat, Bound, Aloof, ValidChild, ValidSecret, Intact, Grant;
  }

  /** Others keep away from the record before the broker's k-th call. */
  ghost predicate Avoided(x: Script, k: nat, id: string, r: Record) {
    && (r.rev.status == Prepared || r.rev.status == Anchored)
    && forall c | c in x.others(k) :: Aloof(c, id, r.rev.frozen.credentialExpiresAt)
  }

  lemma AvoidedStays(sha: Hash, s: Store, x: Script, k: nat, id: string)
    requires id in s.records && Avoided(x, k, id, s.records[id])
    ensures id in Run(sha, s, x.others(k)).records && Run(sha, s, x.others(k)).records[id] == s.records[id]
  {
    hide Aloof, Run;
    AloofRun(sha, s, x.others(k), id);
  }

  lemma OwedAvoids(sha: Hash, r: Record, held: PreparedCredential, x: Script, e: Record, k: nat)
    requires Owed(sha, r, held, x)
    requires e == r || e == AuthorizedAs(r, x) || (x.protector.protect.Some? && e == AnchoredAs(r, x))
    ensures Avoided(x, k, held.revocationID, e)
  {
    hide *;
    OwedChecks(sha, r, held, x);
    OwedToAuthorize(sha, r, held, x);
    NewbornShape(r);
    AuthorizedWellFormed(sha, r, held, x);
    OwedToAnchor(sha, r, held, x);
    if e == AnchoredAs(r, x) { OwedToActivate(sha, r, held, x); }
    AvoidedIs(x, k, held.revocationID, e);
  }

  lemma AvoidedIs(x: Script, k: nat, id: string, r: Record)
    requires r.rev.status == Prepared || r.rev.status == Anchored
    requires forall j, c | c in x.others(j) :: Aloof(c, id, r.rev.frozen.credentialExpiresAt)
    ensures Avoided(x, k, id, r)
  {
    hide Aloof;
  }

  lemma GrantShows(r: Record, x: Script)
    ensures Grant(r, x).revocation == AuthorizedAs(r, x).rev
  {
    hide AuthorizedAs;
  }

  // ---------------------------------------------------------------- honest preparation

  /** A handle is owed: the action resolves, fits the selection and outlives the deadline, and nothing was prepared before. */
  predicate HandleOwed(s: Store, q: DurableRequest, p: Profile, id: string, now: Time, x: PrepareScript) {
    var deadline := CanonicalCredentialExpiry(Limit(now, q, p));
    && ValidActionFence(q.fence) && ValidSelection(q.selection) && ValidWindow(q) && ValidProfile(p) && ValidUUID(id)
    && 0 < now <= x.now <= x.finalNow && x.now < deadline && now + ChildCreateExpiryReserve + MinChildCreateTTL <= deadline
    && ResolvesForPrepare(q.fence, x.first, x.now) && ResolvesForPrepare(q.fence, x.second, x.finalNow)
    && x.first.value.scope == x.second.value.scope == Described(q, x.second.value.scope.targetKey)
    && deadline <= x.first.value.authorizationExpiresAt && deadline <= x.second.value.authorizationExpiresAt
    && id !in s.records && ActionEpochKey(q.fence.actionID, q.fence.epoch) !in s.epochs
    && x.permitToken.Some? && ValidOpaqueText(x.permitToken.value, 4096)
  }

  lemma HandleOwedCreates(sha: Hash, s: Store, q: DurableRequest, p: Profile, id: string, now: Time, x: PrepareScript, c: Call)
    requires HandleOwed(s, q, p, id, now, x) && c == PrepareCall(q, p, id, CanonicalCredentialExpiry(Limit(now, q, p)), x)
    ensures c.Prepare? && PrepareOutcomeOf(sha, s, c).Created?
  {
    hide ValidActionFence, ValidSelection, ValidWindow, ValidProfile, ValidUUID, ResolvesForPrepare, Resolves, Described, ActionEpochKey,
         ValidOpaqueText, Limit, PrepareOutcomeOf, PrepareRefusal, CanonicalCredentialExpiry;
    NotProduction(q);
    DeadlineIsAdmitted(c, q, p, now);
    CreatedExactly(sha, s, c);
  }

  lemma NotProduction(q: DurableRequest)
    requires ValidSelection(q.selection)
    ensures !q.selection.production
  {
    hide ValidIdentifier;
  }

  lemma HandleOwedAccepts(sha: Hash, s: Store, q: DurableRequest, p: Profile, id: string, now: Time, x: PrepareScript, c: Call)
    requires HandleOwed(s, q, p, id, now, x) && c == PrepareCall(q, p, id, CanonicalCredentialExpiry(Limit(now, q, p)), x)
    ensures c.Prepare? && PrepareReply(sha, s, c).Ok? && PrepareReply(sha, s, c).value.created && PrepareReply(sha, s, c).value.permit.Some?
    ensures ValidPrepared(PrepareReply(sha, s, c).value, id, q, p, c.request.credentialExpiresAt)
  {
    HandleOwedCreates(sha, s, q, p, id, now, x, c);
    hide ValidActionFence, ValidSelection, ValidWindow, ValidProfile, ValidUUID, ResolvesForPrepare, Resolves, Described, ActionEpochKey,
         ValidOpaqueText, Limit, PrepareOutcomeOf, PrepareReply, ValidPrepared;
    CreatedReply(sha, s, c);
    PreparedIsAccepted(sha, s, c, q, p);
  }

  lemma BoundBy(rev: Revocation, id: string, q: DurableRequest, p: Profile, expiresAt: Time)
    requires ValidFrozen(rev, id, q, p, expiresAt, rev.status, rev.accessorPresent)
    ensures Bound(rev.frozen, id, q, p, expiresAt)
  {
    hide ValidIdentifier, ValidOpaqueText, Described;
  }

  /** A record that Prepare created and the broker accepted is pristine. */
  lemma CreatedIsPristine(sha: Hash, c: Call, held: PreparedCredential)
    requires c.Prepare? && PrepareRefusal(c).None? && c.second.Some? && c.permitToken.Some? && c.now > 0
    requires var r := NewRecord(sha, c, c.second.value, c.permitToken.value);
             && ValidFrozen(r.rev, held.revocationID, held.request, held.profile, held.expiresAt, Prepared, false)
             && r.rev == held.prepared && held.permit == Permit(held.revocationID, c.permitToken.value)
    requires c.request.revocationID == held.revocationID && c.request.fence == held.request.fence
    requires ValidOpaqueText(held.permit.token, 4096) && held.expiresAt != Zero && ValidProfile(held.profile)
    ensures Pristine(sha, NewRecord(sha, c, c.second.value, c.permitToken.value), held)
  {
    var r := NewRecord(sha, c, c.second.value, c.permitToken.value);
    NewRecordWellFormed(sha, c);
    hide NewRecord, PrepareRefusal, ValidFrozen, ValidOpaqueText, ValidProfile, Newborn, Chronological, PrepareFormat, Bound, RecordKey, ActionEpochKey;
    BoundBy(r.rev, held.revocationID, held.request, held.profile, held.expiresAt);
  }

  /** A new record is held by the fence it was prepared under. */
  lemma NewRecordHeld(sha: Hash, c: Call)
    requires c.Prepare? && PrepareRefusal(c).None? && c.second.Some? && c.permitToken.Some?
    ensures HeldBy(NewRecord(sha, c, c.second.value, c.permitToken.value)) == Shown(sha, c.request.fence)
  {
    hide ValidUUID, ValidActionFence, ValidOpaqueText, ValidIdentifier, CanonicalCredentialExpiry, SignedCredentialExpiry;
  }

  lemma HandleOwedArguments(s: Store, q: DurableRequest, p: Profile, id: string, now: Time, x: PrepareScript)
    requires HandleOwed(s, q, p, id, now, x)
    ensures ValidActionFence(q.fence) && ValidSelection(q.selection) && ValidWindow(q) && ValidProfile(p) && ValidUUID(id)
    ensures 0 < now && now + ChildCreateExpiryReserve + MinChildCreateTTL <= CanonicalCredentialExpiry(Limit(now, q, p))
  {
    hide ValidActionFence, ValidSelection, ValidWindow, ValidProfile, ValidUUID, ResolvesForPrepare, Described, ActionEpochKey,
         ValidOpaqueText, Limit, CanonicalCredentialExpiry;
  }

  // ---------------------------------------------------------------- closing

  /**
   The store has come about, on one clock, from the one that Prepare left, by calls of anybody who does not hold the
   permit of this handle.
   */
  ghost predicate PreparedSince(sha: Hash, s: Store, born: Store, since: seq<Call>, t: Time, held: PreparedCredential, now: Time) {
    && s == Run(sha, born, since) && Later(born, since, t, held.revocationID) && ReadingAfter(since, t) <= now
    && Pristine(sha, born.records[held.revocationID], held)
    && Permitless(sha, born.records[held.revocationID].permitSHA256, since, held.revocationID)
  }

  lemma SinceIntact(sha: Hash, s: Store, born: Store, since: seq<Call>, t: Time, held: PreparedCredential, now: Time)
    requires PreparedSince(sha, s, born, since, t, held, now)
    ensures Intact(held, held.revocationID)
  {
    hide Run, Newborn, Chronological, PrepareFormat, Bound, Intact, Permitless, Later, Consistent, HeldBy, ReadingAfter;
  }

  lemma PristineParts(sha: Hash, r: Record, held: PreparedCredential)
    requires Pristine(sha, r, held)
    ensures Newborn(r) && r.rev == held.prepared && Bound(r.rev.frozen, held.revocationID, held.request, held.profile, held.expiresAt)
  {
    hide Newborn, Chronological, PrepareFormat, Bound, Intact, HeldBy;
  }

  lemma SinceAccepts(sha: Hash, s: Store, born: Store, since: seq<Call>, t: Time, held: PreparedCredential, now: Time, c: Call)
    requires PreparedSince(sha, s, born, since, t, held, now)
    requires c.RecordNoCredential? && OnOneRecord(c) && c.id == held.revocationID && c.now == now && RevocationReply(sha, s, c).Ok?
    ensures ValidNoCredential(RevocationReply(sha, s, c).value, held.prepared, held.revocationID, held.request, held.profile, held.expiresAt)
  {
    hide Run, Later, Pristine, Permitless, ReadingAfter, RevocationReply, ValidNoCredential;
    LaterStarts(born, since, t, held.revocationID);
    PristineParts(sha, born.records[held.revocationID], held);
    hide Newborn, Bound, Consistent, WellFormed, Chronological;
    NoCredentialIsAccepted(sha, born, since, t, c, held.revocationID, held.request, held.profile, held.expiresAt);
  }

  /** The store has come about, on one clock, from one in which the record was active; anybody may have called. */
  ghost predicate ActiveSince(sha: Hash, s: Store, born: Store, since: seq<Call>, t: Time, active: Revocation, now: Time) {
    && s == Run(sha, born, since) && Later(born, since, t, active.frozen.id) && ReadingAfter(since, t) <= now
    && born.records[active.frozen.id].rev == active && active.status == Active
  }

  lemma ActiveAnswers(sha: Hash, s: Store, born: Store, since: seq<Call>, t: Time, active: Revocation, now: Time, c: Call)
    requires ActiveSince(sha, s, born, since, t, active, now) && c == Intent(active.frozen.id, now)
    ensures OnOneRecord(c) && RevocationReply(sha, s, c).Ok?
    ensures ValidRequested(RevocationReply(sha, s, c).value, active.frozen.id, active)
  {
    hide Run, Later, ReadingAfter, RevocationReply, ValidRequested;
    LaterStarts(born, since, t, active.frozen.id);
    hide Consistent, WellFormed, Chronological;
    RequestedIsAccepted(sha, born, since, t, active.frozen.id, now, c);
  }
}
