/**
 Broker and repository agree: which answers of the repository the broker accepts, for every life the
 record may have had between the broker's calls. `Quiet` lives contain no anchor and no activation;
 those calls need the action's fence, which only the broker holds.
 */
module BrokerAgreement {
  import opened Options
  import opened Text
  import opened Revocations
  import opened Lifecycle
  import opened LifecycleTraces
  import opened Management
  import opened RepositoryModel
  import opened RepositoryRuns
  import opened BrokerChecks

  ghost predicate Quiet(ls: seq<Label>) {
    forall l | l in ls :: !enlivens(l)
  }

  /** What the broker's request fixes of the record. */
  predicate Bound(f: Frozen, id: string, q: DurableRequest, p: Profile, expiresAt: Time) {
    && f.id == id && f.actionID == q.fence.actionID && f.runnerID == q.fence.runnerID && f.actionLeaseEpoch == q.fence.epoch
    && f.scope == Described(q, f.scope.targetKey)
    && f.issuer == p.issuerID && f.issuerRevision == p.revision
    && f.credentialExpiresAt == expiresAt && expiresAt % Microsecond == 0
    && ValidIdentifier(f.scope.tenantID, 256) && ValidOpaqueText(f.scope.targetKey, 1024)
  }

  /** Every record that has not been asked to go yet shows what the broker expects of its status. */
  lemma AcceptedFrozen(r: Record, id: string, q: DurableRequest, p: Profile, expiresAt: Time)
    requires WellFormed(r) && Chronological(r) && Bound(r.rev.frozen, id, q, p, expiresAt)
    requires Live(r) || r.rev.status == Prepared || r.rev.status == NoCredential
    ensures ValidFrozen(r.rev, id, q, p, expiresAt, r.rev.status, Live(r))
  {
    hide ValidIdentifier, ValidOpaqueText, Described, ChildBudget, FailureFields, IdleClaim, HeldClaim;
  }

  // ---------------------------------------------------------------- Prepare

  lemma CanonicalMonotone(a: Time, b: Time)
    requires a <= b
    ensures CanonicalCredentialExpiry(a) <= CanonicalCredentialExpiry(b)
  {
    NoWholeBetween(CanonicalCredentialExpiry(a), CanonicalCredentialExpiry(b), b);
  }

  /** A deadline the broker computed at an earlier reading is one that Prepare admits, while the action stays resolvable. */
  lemma DeadlineIsAdmitted(c: Call, q: DurableRequest, p: Profile, at: Time)
    requires c.Prepare? && 0 < at <= c.now <= c.finalNow
    requires ValidUUID(c.request.revocationID) && ValidActionFence(q.fence) && ValidWindow(q) && ValidProfile(p)
    requires c.request.fence == q.fence && c.request.issuer == p.issuerID && c.request.issuerRevision == p.revision
    requires c.request.credentialExpiresAt == CanonicalCredentialExpiry(Limit(at, q, p)) && c.now < c.request.credentialExpiresAt
    requires ResolvesForPrepare(q.fence, c.first, c.now) && ResolvesForPrepare(q.fence, c.second, c.finalNow)
    requires c.first.value.scope == c.second.value.scope == Described(q, c.second.value.scope.targetKey)
    requires !q.selection.production
    requires c.request.credentialExpiresAt <= c.first.value.authorizationExpiresAt
    requires c.request.credentialExpiresAt <= c.second.value.authorizationExpiresAt
    ensures PrepareRefusal(c).None?
  {
    IdentifierIsOpaqueText(p.issuerID, 256, 256);
    hide ValidUUID, ValidActionFence, ValidOpaqueText, ValidIdentifier, Resolves;
    assert q.requestedTTL / Second * Second == q.requestedTTL;
    CanonicalMonotone(Limit(at, q, p), c.now + MaxCredentialTTL);
    CanonicalMonotone(Limit(at, q, p), c.now + q.requestedTTL);
    CanonicalMonotone(c.now + q.requestedTTL, c.finalNow + q.requestedTTL);
  }

  lemma CreatedIsBound(sha: Hash, c: Call, q: DurableRequest, p: Profile)
    requires c.Prepare? && PrepareRefusal(c).None? && c.permitToken.Some?
    requires c.request.fence == q.fence && c.request.issuer == p.issuerID && c.request.issuerRevision == p.revision
    requires c.second.Some? && c.second.value.scope == Described(q, c.second.value.scope.targetKey)
    ensures Bound(NewRecord(sha, c, c.second.value, c.permitToken.value).rev.frozen, c.request.revocationID, q, p,
                  CanonicalCredentialExpiry(c.request.credentialExpiresAt))
  {
    hide ValidUUID, ValidActionFence, ValidOpaqueText, ValidIdentifier;
    IdentifierIsOpaqueText(c.second.value.scope.targetKey, 512, 1024);
  }

  /** Whatever Prepare creates for the broker's request passes the broker's checks. */
  lemma PreparedIsAccepted(sha: Hash, s: Store, c: Call, q: DurableRequest, p: Profile)
    requires c.Prepare? && c.now > 0 && PrepareOutcomeOf(sha, s, c).Created?
    requires c.request.fence == q.fence && c.request.issuer == p.issuerID && c.request.issuerRevision == p.revision
    requires c.second.Some? && c.second.value.scope == Described(q, c.second.value.scope.targetKey)
    requires c.request.credentialExpiresAt % Microsecond == 0
    ensures PrepareReply(sha, s, c).Ok?
    ensures ValidPrepared(PrepareReply(sha, s, c).value, c.request.revocationID, q, p, c.request.credentialExpiresAt)
  {
    hide *;
    CreatedExactly(sha, s, c);
    CreatedReply(sha, s, c);
    NewRecordNewborn(sha, c);
    CreatedIsBound(sha, c, q, p);
    var r := NewRecord(sha, c, c.second.value, c.permitToken.value);
    NewbornShape(r);
    AcceptedFrozen(r, c.request.revocationID, q, p, c.request.credentialExpiresAt);
    AcceptedPrepared(PrepareReply(sha, s, c).value, r, c.request.revocationID, q, p, c.request.credentialExpiresAt);
  }

  lemma CreatedReply(sha: Hash, s: Store, c: Call)
    requires c.Prepare? && PrepareOutcomeOf(sha, s, c).Created?
    ensures PrepareReply(sha, s, c).Ok? && c.permitToken.Some? && ValidOpaqueText(c.permitToken.value, 4096)
    ensures PrepareReply(sha, s, c).value ==
              PrepareResult(PrepareOutcomeOf(sha, s, c).record.rev, true, Some(Permit(c.request.revocationID, c.permitToken.value)))
  {
    hide PrepareRefusal, SamePrepare, NewRecord, ActionEpochKey, ValidOpaqueText;
  }

  lemma AcceptedPrepared(result: PrepareResult, r: Record, id: string, q: DurableRequest, p: Profile, expiresAt: Time)
    requires ValidFrozen(r.rev, id, q, p, expiresAt, r.rev.status, Live(r)) && r.rev.status == Prepared && !Live(r)
    requires r.rev.version == 1 && result.revocation == r.rev
    requires result.permit.Some? && result.permit.value.revocationID == id && ValidOpaqueText(result.permit.value.token, 4096)
    ensures ValidPrepared(result, id, q, p, expiresAt)
  {
    hide ValidFrozen, ValidOpaqueText;
  }

  // ---------------------------------------------------------------- AuthorizeChildCreate

  lemma FirstStepOfNewborn(r: Record, l: Label)
    requires Newborn(r) && Enabled(r, l) && l.now != Zero
    ensures l.Authorize? || l.MarkNoCredential?
    ensures l.Authorize? ==> Next(r, l).rev.status == Prepared && Next(r, l).childAuthorizedAt != Zero
    ensures l.MarkNoCredential? ==> Next(r, l).rev.status == NoCredential
  {
  }

  lemma StepKeepsAuthorization(r: Record, l: Label)
    requires Enabled(r, l) && l.now != Zero && r.childAuthorizedAt != Zero
    ensures Next(r, l).childAuthorizedAt != Zero
  {
  }

  lemma {:induction false} AuthorizationStays(r: Record, ls: seq<Label>)
    requires Legal(r, ls) && r.childAuthorizedAt != Zero
    ensures Play(r, ls).childAuthorizedAt != Zero
    decreases |ls|
  {
    hide Next, Enabled;
    if |ls| > 0 {
      StepKeepsAuthorization(r, ls[0]);
      AuthorizationStays(Next(r, ls[0]), ls[1..]);
    }
  }

  /** A child can be authorized only on a record untouched since Prepare. */
  lemma AuthorizedOnlyWhenNew(r: Record, ls: seq<Label>, l: Label)
    requires Newborn(r) && Legal(r, ls) && l.Authorize? && Enabled(Play(r, ls), l)
    ensures ls == []
  {
    hide Next, Newborn;
    if |ls| > 0 {
      FirstStepOfNewborn(r, ls[0]);
      if ls[0].Authorize? {
        AuthorizationStays(Next(r, ls[0]), ls[1..]);
      } else {
        TerminalIsAbsorbing(Next(r, ls[0]), ls[1..]);
      }
    }
  }

  function AuthorizationFor(r: Record, now: Time): ChildCreateAuthorization {
    ChildCreateAuthorization(r.rev, now, r.rev.frozen.credentialExpiresAt, r.childTTL, ChildCreateVaultCallBudget)
  }

  /** Every authorization the repository grants is one the broker accepts, whatever happened since Prepare. */
  lemma AuthorizationInLife(r: Record, ls: seq<Label>, now: Time, id: string, q: DurableRequest, p: Profile, expiresAt: Time)
    requires Newborn(r) && Chronological(r) && PrepareFormat(r.rev.frozen) && Bound(r.rev.frozen, id, q, p, expiresAt)
    requires Legal(r, ls) && Play(r, ls).rev.updatedAt <= now
    requires Enabled(Play(r, ls), Authorize(now, ChildTTLAt(Play(r, ls), now)))
    ensures ValidAuthorization(AuthorizationFor(Next(Play(r, ls), Authorize(now, ChildTTLAt(Play(r, ls), now))), now),
                               r.rev, id, q, p, expiresAt)
  {
    hide Legal, Play, Newborn, Bound, PrepareFormat, Next, Enabled, ChildTTLAt;
    var l := Authorize(now, ChildTTLAt(Play(r, ls), now));
    AuthorizedOnlyWhenNew(r, ls, l);
    NothingHappens(r);
    NewAuthorization(r, now, id, q, p, expiresAt);
  }

  lemma NewAuthorization(r: Record, now: Time, id: string, q: DurableRequest, p: Profile, expiresAt: Time)
    requires Newborn(r) && Chronological(r) && PrepareFormat(r.rev.frozen) && Bound(r.rev.frozen, id, q, p, expiresAt)
    requires r.rev.updatedAt <= now && Enabled(r, Authorize(now, ChildTTLAt(r, now)))
    ensures ValidAuthorization(AuthorizationFor(Next(r, Authorize(now, ChildTTLAt(r, now))), now), r.rev, id, q, p, expiresAt)
  {
    var l := Authorize(now, ChildTTLAt(r, now));
    ClockAhead(r);
    hide *;
    NewbornShape(r);
    StepKeepsWellFormed(r, l);
    StepKeepsChronological(r, l);
    AcceptedFrozen(Next(r, l), id, q, p, expiresAt);
  }

  lemma ClockAhead(r: Record)
    requires Chronological(r)
    ensures 0 < r.rev.updatedAt
  {
  }

  // ---------------------------------------------------------------- RecordAnchor

  lemma QuietAuthorizedStep(r: Record, l: Label)
    requires r.rev.status == Prepared && r.childAuthorizedAt != Zero && Enabled(r, l) && !enlivens(l)
    ensures Next(r, l).rev.status == NoCredential
  {
  }

  /** Nobody else can touch an authorized record except to close it. */
  lemma QuietAuthorized(r: Record, ls: seq<Label>)
    requires r.rev.status == Prepared && r.childAuthorizedAt != Zero && Legal(r, ls) && Quiet(ls)
    ensures ls == [] || Play(r, ls).rev.status == NoCredential
  {
    hide Next, Enabled;
    if |ls| > 0 {
      assert ls[0] in ls;
      QuietAuthorizedStep(r, ls[0]);
      TerminalIsAbsorbing(Next(r, ls[0]), ls[1..]);
    }
  }

  /** An anchor that succeeds is the next step of the record, and the broker accepts it exactly if the fence was still current. */
  lemma AnchorInLife(r: Record, ls: seq<Label>, current: bool, pr: Protector, last: Time,
                         id: string, q: DurableRequest, p: Profile, expiresAt: Time)
    requires WellFormed(r) && Chronological(r) && Bound(r.rev.frozen, id, q, p, expiresAt)
    requires r.rev.status == Prepared && r.childAuthorizedAt != Zero && Legal(r, ls) && Quiet(ls)
    requires Play(r, ls).rev.updatedAt <= last && AnchorWhen(Play(r, ls), current, pr, last).Ok?
    ensures ls == []
    ensures var reply := Play(Play(r, ls), AnchorWhen(Play(r, ls), current, pr, last).value);
            ValidNext(reply.rev, r.rev, id, q, p, expiresAt, Anchored) <==> current
  {
    QuietAuthorized(r, ls);
    hide Next, Enabled, Legal, WellFormed, Chronological, Bound, ValidNext;
    NothingHappens(r);
    AnchorAnswer(r, current, pr, last, id, q, p, expiresAt);
  }

  lemma AnchorAnswer(r: Record, current: bool, pr: Protector, last: Time, id: string, q: DurableRequest, p: Profile, expiresAt: Time)
    requires WellFormed(r) && Chronological(r) && Bound(r.rev.frozen, id, q, p, expiresAt)
    requires r.rev.status == Prepared && r.childAuthorizedAt != Zero
    requires r.rev.updatedAt <= last && AnchorWhen(r, current, pr, last).Ok?
    ensures var reply := Play(r, AnchorWhen(r, current, pr, last).value);
            ValidNext(reply.rev, r.rev, id, q, p, expiresAt, Anchored) <==> current
  {
    ClockAhead(r);
    hide Play, Next, Enabled, WellFormed, Chronological, Bound, ValidFrozen;
    var l := Anchor(last, pr.protect.value);
    PlaySteps(r, l, Request(last));
    if current {
      StepKeepsWellFormed(r, l);
      StepKeepsChronological(r, l);
      AcceptedFrozen(Next(r, l), id, q, p, expiresAt);
    } else {
    }
  }

  // ---------------------------------------------------------------- Activate

  lemma QuietAnchoredStep(r: Record, l: Label)
    requires r.rev.status == Anchored && Enabled(r, l) && !enlivens(l)
    ensures !Live(Next(r, l))
  {
  }

  /** Once somebody else has moved an anchored record, it is on its way out. */
  lemma QuietAnchored(r: Record, ls: seq<Label>)
    requires r.rev.status == Anchored && Legal(r, ls) && Quiet(ls)
    ensures ls == [] || !Live(Play(r, ls))
  {
    hide Next, Enabled, Live;
    if |ls| > 0 {
      assert ls[0] in ls && forall l | l in ls[1..] :: l in ls;
      QuietAnchoredStep(r, ls[0]);
      NotLiveStaysNotLive(Next(r, ls[0]), ls[1..]);
    }
  }

  /** The broker accepts an activation exactly if nobody came in between and the fence was current, then and with margin after. */
  lemma ActivationInLife(r: Record, ls: seq<Label>, current: bool, still: bool, now: Time, last: Time,
                             id: string, q: DurableRequest, p: Profile, expiresAt: Time)
    requires WellFormed(r) && Chronological(r) && Bound(r.rev.frozen, id, q, p, expiresAt)
    requires r.rev.status == Anchored && Legal(r, ls) && Quiet(ls)
    requires Play(r, ls).rev.updatedAt <= now <= last && ActivateWhen(Play(r, ls), current, still, now, last).Ok?
    ensures var reply := Play(Play(r, ls), ActivateWhen(Play(r, ls), current, still, now, last).value);
            ValidNext(reply.rev, r.rev, id, q, p, expiresAt, Active) <==> ls == [] && current && still
  {
    QuietAnchored(r, ls);
    NothingHappens(r);
    ActivateAnswerOfOthers(Play(r, ls), current, still, now, last);
    hide Next, Enabled, Legal, WellFormed, Chronological, Bound, ValidFrozen, ActivateWhen, Live;
    if ls == [] {
      ActivateAnswer(r, current, still, now, last, id, q, p, expiresAt);
    } else {
    }
  }

  lemma ActivateAnswerOfOthers(r: Record, current: bool, still: bool, now: Time, last: Time)
    ensures !Live(r) && ActivateWhen(r, current, still, now, last).Ok? ==>
              Play(r, ActivateWhen(r, current, still, now, last).value).rev.status != Active
  {
    hide Next;
    NothingHappens(r);
  }

  lemma ActivateAnswer(r: Record, current: bool, still: bool, now: Time, last: Time, id: string, q: DurableRequest, p: Profile, expiresAt: Time)
    requires WellFormed(r) && Chronological(r) && Bound(r.rev.frozen, id, q, p, expiresAt)
    requires r.rev.status == Anchored && r.rev.updatedAt <= now <= last
    requires ActivateWhen(r, current, still, now, last).Ok?
    ensures var reply := Play(r, ActivateWhen(r, current, still, now, last).value);
            ValidNext(reply.rev, r.rev, id, q, p, expiresAt, Active) <==> current && still
  {
    ClockAhead(r);
    hide Play, Next, Enabled, WellFormed, Chronological, Bound, ValidFrozen;
    PlaySteps(r, Request(now), Request(now));
    PlaySteps(r, MarkActive(now), Request(last));
    if current && still {
      StepKeepsWellFormed(r, MarkActive(now));
      StepKeepsChronological(r, MarkActive(now));
      AcceptedFrozen(Next(r, MarkActive(now)), id, q, p, expiresAt);
    } else {
    }
  }

  // ---------------------------------------------------------------- RecordNoCredential

  /**
   A successful RecordNoCredential is accepted exactly if no child was authorized, even if a recovery
   sweep closed the record first. The single-use handle keeps a broker from authorizing one itself.
   */
  lemma NoCredentialInLife(r: Record, ls: seq<Label>, now: Time, id: string, q: DurableRequest, p: Profile, expiresAt: Time)
    requires Newborn(r) && Chronological(r) && Bound(r.rev.frozen, id, q, p, expiresAt)
    requires Legal(r, ls) && Punctual(r, ls) && Play(r, ls).rev.updatedAt <= now && NoCredentialWhen(Play(r, ls), now).Ok?
    ensures ValidNoCredential(Play(Play(r, ls), NoCredentialWhen(Play(r, ls), now).value).rev, r.rev, id, q, p, expiresAt)
            <==> Play(r, ls).childAuthorizedAt == Zero
  {
    ClockAhead(r);
    NewbornShape(r);
    if Play(r, ls).childAuthorizedAt == Zero {
      ClosedLife(r, ls, now);
      hide *;
      var closed := NoCredentialWhen(Play(r, ls), now).value;
      var all := ls + closed;
      PlaySplit(r, ls, closed);
      TraceKeepsWellFormed(r, all);
      TraceKeepsChronological(r, all);
      VersionCountsSteps(r, all);
      AcceptedFrozen(Play(r, all), id, q, p, expiresAt);
    } else {
      AuthorizedThenClosed(r, ls, now);
      hide Play, Legal, Next, NoCredentialWhen, ValidFrozen;
      NothingHappens(Play(r, ls));
      VersionCountsSteps(r, ls);
    }
  }

  /** Without an authorization, the life up to and including the call is a single closing step. */
  lemma ClosedLife(r: Record, ls: seq<Label>, now: Time)
    requires Newborn(r) && Legal(r, ls) && Play(r, ls).rev.updatedAt <= now && 0 < r.rev.updatedAt
    requires Punctual(r, ls) && NoCredentialWhen(Play(r, ls), now).Ok? && Play(r, ls).childAuthorizedAt == Zero
    ensures var closed := NoCredentialWhen(Play(r, ls), now).value;
            && Legal(Play(r, ls), closed) && Punctual(Play(r, ls), closed)
            && |ls| + |closed| == 1 && Play(Play(r, ls), closed).rev.status == NoCredential
  {
    hide Newborn;
    if |ls| == 0 {
      NewbornShape(r);
      PlaySteps(r, MarkNoCredential(now), MarkNoCredential(now));
      assert [MarkNoCredential(now)][1..] == [];
    } else {
      FirstStepOfNewborn(r, ls[0]);
      if ls[0].Authorize? { AuthorizationStays(Next(r, ls[0]), ls[1..]); }
      TerminalIsAbsorbing(Next(r, ls[0]), ls[1..]);
    }
  }

  lemma AuthorizedThenClosed(r: Record, ls: seq<Label>, now: Time)
    requires Newborn(r) && Legal(r, ls) && Play(r, ls).childAuthorizedAt != Zero && NoCredentialWhen(Play(r, ls), now).Ok?
    ensures NoCredentialWhen(Play(r, ls), now).value == [] && |ls| >= 2
  {
    FirstStepIfAny(r, ls);
    hide Newborn, Next;
    if |ls| == 1 { PlaySteps(r, ls[0], ls[0]); }
  }

  lemma FirstStepIfAny(r: Record, ls: seq<Label>)
    requires Newborn(r) && Legal(r, ls)
    ensures r.childAuthorizedAt == Zero
    ensures |ls| > 0 ==>
              || (ls[0].Authorize? && Next(r, ls[0]).rev.status == Prepared)
              || Next(r, ls[0]).childAuthorizedAt == Zero
  {
    if |ls| > 0 { FirstStepOfNewborn(r, ls[0]); }
  }

  // ---------------------------------------------------------------- RequestRevocation

  lemma StepKeepsManaged(r: Record, l: Label)
    requires Enabled(r, l) && l.now != Zero && r.rev.anchoredAt != Zero
    ensures Next(r, l).rev.anchoredAt != Zero
  {
  }

  lemma {:induction false} ManagedStays(r: Record, ls: seq<Label>)
    requires Legal(r, ls) && r.rev.anchoredAt != Zero
    ensures Play(r, ls).rev.anchoredAt != Zero
    decreases |ls|
  {
    hide Next, Enabled;
    if |ls| > 0 {
      StepKeepsManaged(r, ls[0]);
      ManagedStays(Next(r, ls[0]), ls[1..]);
    }
  }

  /** Whatever has become of an active record, asking for its revocation succeeds and the broker accepts the answer. */
  lemma RequestedInLife(r: Record, ls: seq<Label>, now: Time)
    requires WellFormed(r) && Chronological(r) && r.rev.status == Active
    requires Legal(r, ls) && Punctual(r, ls) && Play(r, ls).rev.updatedAt <= now
    ensures RequestSteps(Play(r, ls), now).Ok?
    ensures ValidRequested(Play(Play(r, ls), RequestSteps(Play(r, ls), now).value).rev, r.rev.frozen.id, r.rev)
  {
    ClockAhead(r);
    RequestedLife(r, ls, now);
    hide *;
    var asked := RequestSteps(Play(r, ls), now).value;
    var all := ls + asked;
    PlaySplit(r, ls, asked);
    TraceKeepsWellFormed(r, all);
    TraceKeepsChronological(r, all);
    VersionCountsSteps(r, all);
  }

  lemma RequestedLife(r: Record, ls: seq<Label>, now: Time)
    requires WellFormed(r) && r.rev.status == Active && r.rev.anchoredAt != Zero && 0 < r.rev.updatedAt
    requires Legal(r, ls) && Punctual(r, ls) && Play(r, ls).rev.updatedAt <= now
    ensures RequestSteps(Play(r, ls), now).Ok?
    ensures var asked := RequestSteps(Play(r, ls), now).value;
            && Legal(Play(r, ls), asked) && Punctual(Play(r, ls), asked) && |ls + asked| > 0
            && var e := Play(Play(r, ls), asked);
            && !Live(e) && e.rev.status != Prepared && e.rev.status != NoCredential
  {
    TraceKeepsWellFormed(r, ls);
    ManagedStays(r, ls);
    if |ls| == 0 { NothingHappens(r); }
    ClockStaysAhead(r, ls);
    hide WellFormed;
    RequestAnswer(Play(r, ls), now);
  }

  lemma {:induction false} ClockStaysAhead(r: Record, ls: seq<Label>)
    requires Punctual(r, ls) && 0 < r.rev.updatedAt
    ensures 0 < Play(r, ls).rev.updatedAt
    decreases |ls|
  {
    hide Next;
    if |ls| > 0 {
      StepBumpsVersion(r, ls[0]);
      ClockStaysAhead(Next(r, ls[0]), ls[1..]);
    }
  }

  lemma RequestAnswer(r: Record, now: Time)
    requires r.rev.status != Prepared && r.rev.status != NoCredential && 0 < r.rev.updatedAt <= now
    ensures RequestSteps(r, now).Ok?
    ensures var asked := RequestSteps(r, now).value;
            && Legal(r, asked) && Punctual(r, asked) && (Live(r) ==> |asked| > 0)
            && var e := Play(r, asked);
            && !Live(e) && e.rev.status != Prepared && e.rev.status != NoCredential
  {
    NothingHappens(r);
    PlaySteps(r, Request(now), Request(now));
    assert [Request(now)][1..] == [];
  }

}
