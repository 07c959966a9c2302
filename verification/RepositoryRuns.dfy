/**
 Every run of the repository: any sequence of calls from an empty store. Each call moves each record
 along a legal piece of its lifecycle, so the results about single lives hold of every record of every
 reachable store.
 */
module RepositoryRuns {
  import opened Options
  import opened Text
  import opened Revocations
  import opened Lifecycle
  import opened LifecycleTraces
  import opened Management
  import opened RepositoryModel

  /** Records sit under their own identifiers and are in one-to-one correspondence with action epochs. */
  ghost predicate Consistent(s: Store) {
    && (forall id | id in s.records ::
          && WellFormed(s.records[id]) && PrepareFormat(s.records[id].rev.frozen)
          && s.records[id].rev.frozen.id == id
          && RecordKey(s.records[id]) in s.epochs && s.epochs[RecordKey(s.records[id])] == id)
    && (forall key | key in s.epochs ::
          s.epochs[key] in s.records && RecordKey(s.records[s.epochs[key]]) == key)
  }

  predicate Ticking(c: Call) {
    c.now != Zero && LastReading(c) != Zero
  }

  ghost predicate AllTicking(cs: seq<Call>) {
    forall c | c in cs :: Ticking(c)
  }

  // ---------------------------------------------------------------- every move is legal

  /**
   Legal steps, carrying only the call's own readings and retry delay, punctual if those readings are
   not behind the record, and enlivening the record only if the call may do that.
   */
  predicate Fit(r: Record, ls: seq<Label>, now: Time, last: Time, delay: Option<Duration>, live: bool) {
    && Legal(r, ls)
    && (r.rev.updatedAt <= now <= last ==> Punctual(r, ls))
    && (forall l | l in ls :: (l.now == now || l.now == last) && (l.Retry? ==> delay == Some(l.delay)))
    && (forall l | l in ls :: enlivens(l) ==> live)
  }

  predicate MayEnliven(c: Call) {
    c.RecordAnchor? || c.Activate?
  }

  function DelayOf(c: Call): Option<Duration> {
    if c.RetryRevocation? then Some(c.delay) else None
  }

  lemma FitOne(r: Record, l: Label, now: Time, last: Time)
    requires Enabled(r, l) && l.now != Zero && (l.now == now || l.now == last)
    ensures Fit(r, [l], now, last, if l.Retry? then Some(l.delay) else None, enlivens(l))
  {
    assert [l][1..] == [];
  }

  lemma FitNothing(r: Record, now: Time, last: Time)
    ensures Fit(r, [], now, last, None, false)
  {
  }

  lemma FitWider(r: Record, l: Label, now: Time, delay: Duration)
    requires Enabled(r, l) && l.now == now != Zero && !l.Retry? && !enlivens(l)
    ensures Fit(r, [l], now, now, Some(delay), false)
  {
    FitOne(r, l, now, now);
  }

  lemma FitTwo(r: Record, a: Label, b: Label, now: Time)
    requires Enabled(r, a) && a.now != Zero && Enabled(Next(r, a), b) && b.now != Zero
    requires (a.now == now || a.now == b.now) && !a.Retry? && !b.Retry?
    ensures Fit(r, [a, b], now, b.now, None, enlivens(a) || enlivens(b))
  {
    StepBumpsVersion(r, a);
    FitOne(Next(r, a), b, b.now, b.now);
    assert [a, b][1..] == [b];
  }

  lemma AuthorizeFits(r: Record, permitMatches: bool, now: Time)
    requires now != Zero && AuthorizeWhen(r, permitMatches, now).Ok?
    ensures Fit(r, AuthorizeWhen(r, permitMatches, now).value, now, now, None, false)
  {
    FitOne(r, Authorize(now, ChildTTLAt(r, now)), now, now);
  }

  lemma AnchorFitsTwice(r: Record, p: ProtectedReference, now: Time, last: Time)
    requires last != Zero && Enabled(r, Anchor(last, p))
    ensures Fit(r, [Anchor(last, p)], now, last, None, true)
    ensures Fit(r, [Anchor(last, p), Request(last)], now, last, None, true)
  {
    FitOne(r, Anchor(last, p), now, last);
    assert Next(r, Anchor(last, p)).rev.status == Anchored;
    FitTwo(r, Anchor(last, p), Request(last), now);
  }

  lemma AnchorFits(r: Record, current: bool, p: Protector, now: Time, last: Time)
    requires last != Zero && AnchorWhen(r, current, p, last).Ok?
    ensures Fit(r, AnchorWhen(r, current, p, last).value, now, last, None, true)
  {
    if r.rev.status == Prepared {
      AnchorFitsTwice(r, p.protect.value, now, last);
    } else if Live(r) {
      FitOne(r, Request(last), now, last);
    }
  }

  lemma ActiveFitsTwice(r: Record, now: Time, last: Time)
    requires now != Zero && last != Zero && Enabled(r, MarkActive(now))
    ensures Fit(r, [MarkActive(now)], now, last, None, true)
    ensures Fit(r, [MarkActive(now), Request(last)], now, last, None, true)
  {
    FitOne(r, MarkActive(now), now, last);
    assert Next(r, MarkActive(now)).rev.status == Active;
    FitTwo(r, MarkActive(now), Request(last), now);
  }

  lemma ActivateFits(r: Record, current: bool, stillCurrent: bool, now: Time, last: Time)
    requires now != Zero && last != Zero && ActivateWhen(r, current, stillCurrent, now, last).Ok?
    ensures Fit(r, ActivateWhen(r, current, stillCurrent, now, last).value, now, last, None, true)
  {
    if r.rev.status == Anchored {
      FitOne(r, Request(now), now, last);
      ActiveFitsTwice(r, now, last);
    } else if r.rev.status == Active {
      FitOne(r, Request(last), now, last);
    }
  }

  lemma NoCredentialFits(sha: Hash, r: Record, fence: ActionFence, m: Metadata, now: Time)
    requires now != Zero && NoCredentialSteps(sha, r, fence, m, now).Ok?
    ensures Fit(r, NoCredentialSteps(sha, r, fence, m, now).value, now, now, None, false)
  {
    if r.rev.status == Prepared { FitOne(r, MarkNoCredential(now), now, now); }
  }

  lemma RequestFits(r: Record, now: Time)
    requires now != Zero
    ensures Live(r) ==> Fit(r, [Request(now)], now, now, None, false)
    ensures RequestSteps(r, now).Ok? ==> Fit(r, RequestSteps(r, now).value, now, now, None, false)
  {
    if Live(r) { FitOne(r, Request(now), now, now); }
  }

  lemma ConfirmFits(r: Record, subject: string, evidence: string, admin: bool, now: Time)
    requires now != Zero && ValidSHA256(evidence) && ConfirmSteps(r, subject, evidence, admin, now).Ok?
    ensures Fit(r, ConfirmSteps(r, subject, evidence, admin, now).value, now, now, None, false)
  {
    var ls := ConfirmSteps(r, subject, evidence, admin, now).value;
    if ls != [] { FitOne(r, Confirm(now, subject, evidence, admin), now, now); }
  }

  lemma RequeueFits(r: Record, now: Time)
    requires now != Zero && RequeueSteps(r, now).Ok?
    ensures Fit(r, RequeueSteps(r, now).value, now, now, None, false)
  {
    if r.rev.status == ManualRequired {
      assert r.confirmations == map[];
      FitOne(r, Requeue(now), now, now);
    }
  }

  lemma HeartbeatFits(r: Record, key: ClaimKey, extension: Duration, now: Time)
    requires now != Zero && ValidClaimDuration(extension) && HeartbeatSteps(r, key, extension, now).Ok?
    ensures Fit(r, HeartbeatSteps(r, key, extension, now).value, now, now, None, false)
  {
    FitOne(r, Heartbeat(now, key, extension), now, now);
  }

  lemma CompleteFits(r: Record, key: ClaimKey, now: Time)
    requires now != Zero && CompleteSteps(r, key, now).Ok?
    ensures Fit(r, CompleteSteps(r, key, now).value, now, now, None, false)
  {
    if r.rev.status != Revoked { FitOne(r, Complete(now, key), now, now); }
  }

  lemma RetryFits(r: Record, key: ClaimKey, delay: Duration, code: FailureCode, detail: string, now: Time)
    requires now != Zero && MinRevocationRetryDelay <= delay <= MaxRevocationRetryDelay
    requires ValidFailureCode(code) && ValidSHA256(detail) && RetrySteps(r, key, delay, code, detail, now).Ok?
    ensures Fit(r, RetrySteps(r, key, delay, code, detail, now).value, now, now, Some(delay), false)
  {
    if Exhausted(r, now) { FitWider(r, GiveUp(now, key, code, detail), now, delay); }
    else { FitOne(r, Retry(now, key, delay, code, detail), now, now); }
  }

  lemma ManualFits(r: Record, key: ClaimKey, code: FailureCode, detail: string, now: Time)
    requires now != Zero && ValidFailureCode(code) && ValidSHA256(detail) && ManualSteps(r, key, code, detail, now).Ok?
    ensures Fit(r, ManualSteps(r, key, code, detail, now).value, now, now, None, false)
  {
    FitOne(r, GiveUp(now, key, code, detail), now, now);
  }

  /** What admission guarantees about the arguments that end up in a step. */
  predicate WellArgued(c: Call) {
    match c
    case HeartbeatClaim(_, extension, _) => ValidClaimDuration(extension)
    case RetryRevocation(_, delay, code, _, _) =>
      MinRevocationRetryDelay <= delay <= MaxRevocationRetryDelay && ValidFailureCode(code)
    case RequireManual(_, code, _, _) => ValidFailureCode(code)
    case SubmitExternalConfirmation(_, _, evidence, _, _) => ValidSHA256(evidence)
    case _ => true
  }

  lemma AdmittedIsWellArgued(c: Call)
    requires OnOneRecord(c) && Refusal(c).None?
    ensures WellArgued(c)
  {
    hide ValidIdentifier, ValidOpaqueText, ValidUUID, ValidSubject, ValidSHA256, Resolves;
  }

  lemma ActionStepsFit(sha: Hash, r: Record, c: Call)
    requires ActionCall(c) && Ticking(c) && ActionSteps(sha, r, c).Ok?
    ensures Fit(r, ActionSteps(sha, r, c).value, c.now, LastReading(c), DelayOf(c), MayEnliven(c))
  {
    hide Fit, FenceCurrent, FenceMatches, ScopeMatches, HoldsClaim, Exhausted, ChildTTLAt, ValidSHA256;
    FitNothing(r, c.now, c.now);
    match c
    case AuthorizeChildCreate(permit, _, _, now) => AuthorizeFits(r, r.permitSHA256 == sha(permit.token), now);
    case RecordAnchor(_, _, _, gate, protector, now, last) =>
      var i := gate.inspection;
      AnchorFits(r, FenceCurrent(r, i, now, 0) && FenceCurrent(r, i, last, MinPostChildFenceWindow), protector, now, last);
    case Activate(_, _, gate, now, last) =>
      var i := gate.inspection;
      ActivateFits(r, FenceCurrent(r, i, now, 0), FenceCurrent(r, i, last, MinPostChildFenceWindow), now, last);
    case RecordNoCredential(_, fence, metadata, now) => NoCredentialFits(sha, r, fence, metadata.value, now);
  }

  lemma OperatorStepsFit(sha: Hash, r: Record, c: Call)
    requires OperatorCall(c) && Ticking(c) && WellArgued(c) && OperatorSteps(sha, r, c).Ok?
    ensures Fit(r, OperatorSteps(sha, r, c).value, c.now, LastReading(c), DelayOf(c), MayEnliven(c))
  {
    hide Fit, FenceCurrent, FenceMatches, ScopeMatches, HoldsClaim, Exhausted, ChildTTLAt, ValidSHA256;
    FitNothing(r, c.now, c.now);
    match c
    case RecoverManagedOne(_, _, now) => RequestFits(r, now);
    case RequestRevocation(_, _, _, now) => RequestFits(r, now);
    case RequeueManual(_, _, now) => RequeueFits(r, now);
    case SubmitExternalConfirmation(_, subject, evidence, admin, now) => ConfirmFits(r, subject, evidence, admin, now);
  }

  lemma WorkerStepsFit(sha: Hash, r: Record, c: Call)
    requires ClaimCall(c) && Ticking(c) && WellArgued(c) && WorkerSteps(sha, r, c).Ok?
    ensures Fit(r, WorkerSteps(sha, r, c).value, c.now, LastReading(c), DelayOf(c), MayEnliven(c))
  {
    hide Fit, FenceCurrent, FenceMatches, ScopeMatches, HoldsClaim, Exhausted, ChildTTLAt, ValidSHA256;
    FitNothing(r, c.now, c.now);
    match c
    case HeartbeatClaim(claim, extension, now) => HeartbeatFits(r, KeyOf(sha, claim), extension, now);
    case CompleteRevocation(claim, now) => CompleteFits(r, KeyOf(sha, claim), now);
    case RetryRevocation(claim, delay, code, detail, now) => RetryFits(r, KeyOf(sha, claim), delay, code, sha(detail), now);
    case RequireManual(claim, code, detail, now) => ManualFits(r, KeyOf(sha, claim), code, sha(detail), now);
  }

  lemma StepsFit(sha: Hash, r: Record, c: Call)
    requires Ticking(c) && OnOneRecord(c) && WellArgued(c) && Steps(sha, r, c).Ok?
    ensures Fit(r, Steps(sha, r, c).value, c.now, LastReading(c), DelayOf(c), MayEnliven(c))
  {
    hide Fit, ActionSteps, WorkerSteps, OperatorSteps, WellArgued;
    if ActionCall(c) {
      ActionStepsFit(sha, r, c);
    } else if ClaimCall(c) {
      WorkerStepsFit(sha, r, c);
    } else {
      OperatorStepsFit(sha, r, c);
    }
  }

  lemma ClaimFits(sha: Hash, r: Record, id: string, c: Call, token: string)
    requires c.ClaimRevocations? && c.now != Zero && ValidSweep(c) && Claimable(r, c.now) && r.rev.claimEpoch < MaxInt64
    ensures Fit(r, ClaimSteps(sha, r, id, c, token), c.now, c.now, None, false)
  {
    var key := ClaimKey(c.workerID, sha(token), r.rev.claimEpoch + 1);
    var claim := Claim(c.now, c.workerID, c.lease, sha(token));
    FitOne(r, claim, c.now, c.now);
    ClaimHolds(r, claim);
    FitTwo(r, claim, GiveUp(c.now, key, InvalidReference, sha(FailureDetailProtectedRefInvalid)), c.now);
  }

  /** The claim just taken is held by its own fence. */
  lemma ClaimHolds(r: Record, l: Label)
    requires l.Claim? && l.lease > 0
    ensures HoldsClaim(Next(r, l), ClaimKey(l.worker, l.tokenSHA256, r.rev.claimEpoch + 1), l.now)
  {
  }

  lemma SweepStepsFit(sha: Hash, r: Record, id: string, c: Call, i: nat)
    requires Sweep(c) && c.now != Zero && ValidSweep(c) && Eligible(r, c)
    requires c.ClaimRevocations? ==> c.tokens(i).Some? && r.rev.claimEpoch < MaxInt64
    ensures Fit(r, SweepSteps(sha, r, id, c, i), c.now, c.now, None, false)
  {
    match c
    case RecoverPrepared(_, now) => FitOne(r, MarkNoCredential(now), now, now);
    case RecoverExhausted(_, now) => FitOne(r, Exhaust(now, sha(FailureDetailExhaustedWithoutAck)), now, now);
    case ClaimRevocations(_, _, _, _, _, _) => ClaimFits(sha, r, id, c, c.tokens(i).value);
  }

  lemma ChosenMeansValid(s: Store, c: Call)
    requires Sweep(c) && |Chosen(s, c)| > 0
    ensures ValidSweep(c)
  {
  }

  lemma SweepMovesFit(sha: Hash, s: Store, c: Call, id: string)
    requires id in s.records && s.records[id].rev.claimEpoch <= MaxInt64 && Sweep(c) && c.now != Zero
    ensures Fit(s.records[id], SweepMoves(sha, s, c, id), c.now, c.now, None, false)
  {
    hide Fit, Chosen, Eligible, SweepSteps, ValidSweep;
    FitNothing(s.records[id], c.now, c.now);
    var chosen := Chosen(s, c);
    var p := Position(chosen, id);
    if p.Some? && SweepCommits(s, c) {
      assert chosen[p.value] in chosen;
      if c.ClaimRevocations? { CommitHasTokens(s, c, chosen, 0, p.value); }
      ChosenMeansValid(s, c);
      SweepStepsFit(sha, s.records[id], id, c, p.value);
    }
  }

  lemma FitNothingOf(r: Record, c: Call)
    ensures Fit(r, [], c.now, LastReading(c), DelayOf(c), MayEnliven(c))
  {
  }

  lemma SweepTraits(c: Call)
    requires Sweep(c)
    ensures LastReading(c) == c.now && DelayOf(c) == None && !MayEnliven(c) && (Ticking(c) ==> c.now != Zero)
  {
  }

  lemma SweepHasMoves(sha: Hash, s: Store, c: Call, id: string)
    requires id in s.records && Sweep(c)
    ensures Moves(sha, s, c, id) == SweepMoves(sha, s, c, id)
  {
    hide SweepMoves, Decision;
  }

  lemma OneRecordTraits(sha: Hash, s: Store, c: Call, id: string)
    requires id in s.records && !Sweep(c)
    ensures
      || Moves(sha, s, c, id) == []
      || (&& OnOneRecord(c) && WellArgued(c) && Steps(sha, s.records[id], c).Ok?
          && Moves(sha, s, c, id) == Steps(sha, s.records[id], c).value)
  {
    hide SweepMoves, Steps, Refusal, WellArgued;
    if OnOneRecord(c) && Refusal(c).None? { AdmittedIsWellArgued(c); }
  }

  lemma MovesFit(sha: Hash, s: Store, c: Call, id: string)
    requires id in s.records && s.records[id].rev.claimEpoch <= MaxInt64 && Ticking(c)
    ensures Fit(s.records[id], Moves(sha, s, c, id), c.now, LastReading(c), DelayOf(c), MayEnliven(c))
  {
    hide *;
    if Sweep(c) {
      SweepTraits(c);
      SweepHasMoves(sha, s, c, id);
      SweepMovesFit(sha, s, c, id);
    } else {
      OneRecordTraits(sha, s, c, id);
      FitNothingOf(s.records[id], c);
      if Moves(sha, s, c, id) != [] { StepsFit(sha, s.records[id], c); }
    }
  }

  // ---------------------------------------------------------------- consistency is kept

  /** The only record or epoch a call can add is the one Prepare creates. */
  lemma StoreAfter(sha: Hash, s: Store, c: Call)
    ensures var a := After(sha, s, c);
            if !c.Prepare? then a.records.Keys == s.records.Keys && a.epochs == s.epochs
            else if PrepareOutcomeOf(sha, s, c).Created? then
              var id, key := c.request.revocationID, ActionEpochKey(c.request.fence.actionID, c.request.fence.epoch);
              a == Store(s.records[id := PrepareOutcomeOf(sha, s, c).record], s.epochs[key := id])
            else a == s
  {
    hide Play, Moves, PrepareOutcomeOf, ActionEpochKey;
  }

  /** A call never removes a record, and changes it only along the moves it takes. */
  lemma RecordAfter(sha: Hash, s: Store, c: Call, id: string)
    requires id in s.records
    ensures id in After(sha, s, c).records
    ensures After(sha, s, c).records[id] == Play(s.records[id], Moves(sha, s, c, id))
  {
    hide Play;
    if c.Prepare? {
      assert Moves(sha, s, c, id) == [];
      NothingHappens(s.records[id]);
      PrepareKeepsRecord(sha, s, c, id);
    } else {
    }
  }

  lemma PrepareKeepsRecord(sha: Hash, s: Store, c: Call, id: string)
    requires c.Prepare? && id in s.records
    ensures id in After(sha, s, c).records && After(sha, s, c).records[id] == s.records[id]
  {
    hide After, PrepareOutcomeOf, ActionEpochKey;
    StoreAfter(sha, s, c);
    if PrepareOutcomeOf(sha, s, c).Created? { CreatedExactly(sha, s, c); }
  }

  lemma NewRecordFormat(sha: Hash, c: Call)
    requires c.Prepare? && PrepareRefusal(c).None? && c.permitToken.Some?
    ensures var r := NewRecord(sha, c, c.second.value, c.permitToken.value);
            && PrepareFormat(r.rev.frozen) && r.rev.frozen.id == c.request.revocationID
            && RecordKey(r) == ActionEpochKey(c.request.fence.actionID, c.request.fence.epoch)
            && c.now == r.rev.frozen.createdAt
  {
    hide ValidOpaqueText, ValidIdentifier, ValidUUID, ActionEpochKey;
  }

  lemma NewRecordNewborn(sha: Hash, c: Call)
    requires c.Prepare? && PrepareRefusal(c).None? && c.permitToken.Some?
    ensures var r := NewRecord(sha, c, c.second.value, c.permitToken.value);
            Newborn(r) && r.rev.updatedAt == r.rev.frozen.createdAt == c.now && (c.now > 0 ==> Chronological(r))
  {
    hide PrepareRefusal;
  }

  lemma NewRecordWellFormed(sha: Hash, c: Call)
    requires c.Prepare? && PrepareRefusal(c).None? && c.permitToken.Some?
    ensures var r := NewRecord(sha, c, c.second.value, c.permitToken.value);
            && Newborn(r) && PrepareFormat(r.rev.frozen) && r.rev.frozen.id == c.request.revocationID
            && RecordKey(r) == ActionEpochKey(c.request.fence.actionID, c.request.fence.epoch)
            && r.rev.updatedAt == r.rev.frozen.createdAt == c.now
            && (c.now > 0 ==> Chronological(r))
  {
    hide *;
    NewRecordFormat(sha, c);
    NewRecordNewborn(sha, c);
  }

  lemma CreatedExactly(sha: Hash, s: Store, c: Call)
    requires c.Prepare?
    ensures PrepareOutcomeOf(sha, s, c).Created? <==>
              && PrepareRefusal(c).None? && c.request.revocationID !in s.records
              && ActionEpochKey(c.request.fence.actionID, c.request.fence.epoch) !in s.epochs
              && c.permitToken.Some? && ValidOpaqueText(c.permitToken.value, 4096)
    ensures PrepareOutcomeOf(sha, s, c).Created? ==>
              && c.second.Some? && c.permitToken.Some?
              && PrepareOutcomeOf(sha, s, c).record == NewRecord(sha, c, c.second.value, c.permitToken.value)
  {
    hide SamePrepare, NewRecord, ActionEpochKey, ValidOpaqueText, PrepareRefusal;
    AdmittedResolves(c);
  }

  lemma AdmittedResolves(c: Call)
    requires c.Prepare?
    ensures PrepareRefusal(c).None? ==> c.second.Some?
  {
    hide ValidUUID, ValidActionFence, ValidOpaqueText, ValidIdentifier, CanonicalCredentialExpiry, SignedCredentialExpiry;
  }

  lemma ClaimEpochBounded(s: Store, id: string)
    requires Consistent(s) && id in s.records
    ensures WellFormed(s.records[id]) && s.records[id].rev.claimEpoch <= MaxInt64
  {
    hide StatusShape, PrepareFormat;
  }

  lemma MovedWellFormed(sha: Hash, s: Store, c: Call, id: string)
    requires Consistent(s) && Ticking(c) && id in s.records
    ensures id in After(sha, s, c).records && WellFormed(After(sha, s, c).records[id])
    ensures After(sha, s, c).records[id].rev.frozen == s.records[id].rev.frozen
  {
    hide Play, Moves, After, Legal, WellFormed, PrepareFormat, RecordKey;
    ClaimEpochBounded(s, id);
    MovesFit(sha, s, c, id);
    RecordAfter(sha, s, c, id);
    TraceKeepsWellFormed(s.records[id], Moves(sha, s, c, id));
    VersionCountsSteps(s.records[id], Moves(sha, s, c, id));
  }

  lemma UpdateKeepsConsistent(s: Store, a: Store)
    requires Consistent(s) && a.records.Keys == s.records.Keys && a.epochs == s.epochs
    requires forall id | id in s.records :: WellFormed(a.records[id]) && a.records[id].rev.frozen == s.records[id].rev.frozen
    ensures Consistent(a)
  {
    hide WellFormed, PrepareFormat, ActionEpochKey;
  }

  lemma InsertKeepsConsistent(s: Store, id: string, key: string, r: Record)
    requires Consistent(s) && id !in s.records && key !in s.epochs
    requires WellFormed(r) && PrepareFormat(r.rev.frozen) && r.rev.frozen.id == id && RecordKey(r) == key
    ensures Consistent(Store(s.records[id := r], s.epochs[key := id]))
  {
    hide WellFormed, PrepareFormat, RecordKey;
  }

  lemma ConsistentAfter(sha: Hash, s: Store, c: Call)
    requires Consistent(s) && Ticking(c)
    ensures Consistent(After(sha, s, c))
  {
    hide Consistent, Play, Moves, After, WellFormed, PrepareFormat, ActionEpochKey, PrepareOutcomeOf, NewRecord, Newborn, PrepareRefusal;
    var a := After(sha, s, c);
    StoreAfter(sha, s, c);
    if c.Prepare? && PrepareOutcomeOf(sha, s, c).Created? {
      CreatedExactly(sha, s, c);
      NewRecordWellFormed(sha, c);
      var r := NewRecord(sha, c, c.second.value, c.permitToken.value);
      NewbornShape(r);
      InsertKeepsConsistent(s, c.request.revocationID, RecordKey(r), r);
    } else {
      forall id | id in s.records
        ensures id in a.records && WellFormed(a.records[id]) && a.records[id].rev.frozen == s.records[id].rev.frozen
      {
        MovedWellFormed(sha, s, c, id);
      }
      UpdateKeepsConsistent(s, a);
    }
  }

  lemma {:induction false} ConsistentRun(sha: Hash, s: Store, cs: seq<Call>)
    requires Consistent(s) && AllTicking(cs)
    ensures Consistent(Run(sha, s, cs))
    decreases |cs|
  {
    hide After, Consistent;
    if |cs| > 0 {
      ConsistentAfter(sha, s, cs[0]);
      ConsistentRun(sha, After(sha, s, cs[0]), cs[1..]);
    }
  }

  // ---------------------------------------------------------------- the life of a record in a run

  /** The steps a run takes on a record, from its creation on if the run creates it. */
  ghost function TraceOf(sha: Hash, s: Store, cs: seq<Call>, id: string): seq<Label>
    decreases |cs|
  {
    if |cs| == 0 then []
    else (if id in s.records then Moves(sha, s, cs[0], id) else []) + TraceOf(sha, After(sha, s, cs[0]), cs[1..], id)
  }

  lemma {:induction false} RunTrace(sha: Hash, s: Store, cs: seq<Call>, id: string)
    requires Consistent(s) && AllTicking(cs) && id in s.records
    ensures id in Run(sha, s, cs).records
    ensures Run(sha, s, cs).records[id] == Play(s.records[id], TraceOf(sha, s, cs, id))
    ensures Legal(s.records[id], TraceOf(sha, s, cs, id))
    decreases |cs|
  {
    hide Play, Moves, After, Legal, Consistent, WellFormed;
    if |cs| == 0 {
      NothingHappens(s.records[id]);
    } else {
      var a := After(sha, s, cs[0]);
      RecordAfter(sha, s, cs[0], id);
      ClaimEpochBounded(s, id);
      MovesFit(sha, s, cs[0], id);
      ConsistentAfter(sha, s, cs[0]);
      RunTrace(sha, a, cs[1..], id);
      PlaySplit(s.records[id], Moves(sha, s, cs[0], id), TraceOf(sha, a, cs[1..], id));
    }
  }

  lemma RunNothing(sha: Hash, s: Store)
    ensures Run(sha, s, []) == s
  {
  }

  lemma {:induction false} RunSplit(sha: Hash, s: Store, a: seq<Call>, b: seq<Call>)
    ensures Run(sha, s, a + b) == Run(sha, Run(sha, s, a), b)
    decreases |a|
  {
    hide After;
    if |a| == 0 {
      assert a + b == b;
    } else {
      assert (a + b)[1..] == a[1..] + b;
      RunSplit(sha, After(sha, s, a[0]), a[1..], b);
    }
  }
}
