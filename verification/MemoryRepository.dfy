/**
 The in-memory repository itself: a class over two maps whose methods follow the code branch by branch.
 Every method is proved to leave exactly the store that `After` predicts for the call and to return
 exactly the predicted reply, so whatever is proved about runs of calls holds of this class.
 */
module MemoryRepositories {
  import opened Options
  import opened Text
  import opened Revocations
  import opened Lifecycle
  import opened LifecycleTraces
  import opened Ordering
  import opened RepositoryModel
  import opened RepositoryRuns
  import opened RepositoryDecisions
  import opened RepositorySweeps

  // ---------------------------------------------------------------- changes to one record

  method ApplyAuthorization(record: Record, ttl: Duration, now: Time) returns (r: Record)
    ensures r == Next(record, Authorize(now, ttl))
  {
    r := record.(childAuthorizedAt := now);
    r := r.(childTTL := ttl);
    r := Bumped(r, now);
  }

  method ApplyAnchor(record: Record, protected: ProtectedReference, now: Time) returns (r: Record)
    ensures r == Next(record, Anchor(now, protected))
  {
    r := record.(protected := protected);
    r := r.(rev := r.rev.(status := Anchored));
    r := r.(rev := r.rev.(accessorPresent := true));
    r := r.(rev := r.rev.(accessorHMAC := Hex(protected.accessorHMAC)));
    r := r.(rev := r.rev.(encryptionKeyID := protected.keyID));
    r := r.(rev := r.rev.(anchoredAt := now));
    r := Bumped(r, now);
  }

  method ApplyRequestRevocation(record: Record, now: Time) returns (r: Result<Record>)
    ensures Follows(record, RequestSteps(record, now), r)
  {
    hide Play, Next;
    PlaySteps(record, Request(now), Request(now));
    match record.rev.status {
      case Anchored =>
        var queued := ApplyQueue(record, now);
        r := Ok(queued);
      case Active =>
        var queued := ApplyQueue(record, now);
        r := Ok(queued);
      case RevocationPending => r := Ok(record);
      case Revoking => r := Ok(record);
      case ManualRequired => r := Ok(record);
      case Revoked => r := Ok(record);
      case _ => r := Err(InvalidTransition);
    }
  }

  method ApplyQueue(record: Record, now: Time) returns (r: Record)
    ensures r == Next(record, Request(now))
  {
    r := record.(rev := record.rev.(status := RevocationPending));
    r := r.(rev := r.rev.(availableAt := now));
    r := r.(rev := r.rev.(revocationRequestedAt := now));
    r := r.(cycleAttemptBase := r.rev.attempt);
    r := r.(cycleStartedAt := now);
    r := Bumped(r, now);
  }

  method ApplyActivation(record: Record, now: Time) returns (r: Record)
    ensures r == Next(record, MarkActive(now))
  {
    r := record.(rev := record.rev.(status := Active));
    r := r.(rev := r.rev.(activatedAt := now));
    r := Bumped(r, now);
  }

  method ApplyNoCredential(record: Record, now: Time) returns (r: Record)
    ensures r == Next(record, MarkNoCredential(now))
  {
    r := record.(rev := record.rev.(status := NoCredential));
    r := Bumped(r, now);
  }

  method ApplyClaim(record: Record, worker: string, lease: Duration, tokenSHA256: string, now: Time) returns (r: Record)
    ensures r == Next(record, Claim(now, worker, lease, tokenSHA256))
  {
    r := record.(rev := record.rev.(status := Revoking));
    r := r.(rev := r.rev.(claimEpoch := r.rev.claimEpoch + 1));
    r := r.(rev := r.rev.(claimedBy := worker));
    r := r.(rev := r.rev.(claimedAt := now));
    r := r.(rev := r.rev.(lastHeartbeatAt := now));
    r := r.(rev := r.rev.(claimExpiresAt := now + lease));
    r := r.(rev := r.rev.(attempt := r.rev.attempt + 1));
    r := r.(claimTokenSHA256 := tokenSHA256);
    r := Bumped(r, now);
  }

  method ApplyHeartbeat(record: Record, key: ClaimKey, extension: Duration, now: Time) returns (r: Record)
    ensures r == Next(record, Label.Heartbeat(now, key, extension))
  {
    r := record.(rev := record.rev.(lastHeartbeatAt := now));
    r := r.(rev := r.rev.(claimExpiresAt := now + extension));
    r := Bumped(r, now);
  }

  method ApplyCompletion(record: Record, key: ClaimKey, now: Time) returns (r: Record)
    ensures r == Next(record, Complete(now, key))
  {
    r := record.(completedClaimSHA256 := key.tokenSHA256);
    r := r.(completedClaimEpoch := key.epoch);
    r := r.(completedClaimWorker := key.worker);
    r := r.(rev := r.rev.(status := Revoked));
    r := r.(rev := r.rev.(revokedAt := now));
    r := ClearClaim(r);
    r := ClearReference(r);
    r := Bumped(r, now);
  }

  /** The common tail of a failed claim, after the record has been queued again or handed to a human. */
  method ApplyFailure(record: Record, code: FailureCode, detailSHA256: string, now: Time) returns (r: Record)
    ensures r == Bumped(ClearClaim(Failed(record, code, detailSHA256)), now)
  {
    r := record.(rev := record.rev.(failureCount := record.rev.failureCount + 1));
    r := r.(rev := r.rev.(failureCode := code));
    r := r.(rev := r.rev.(failureDetailSHA256 := detailSHA256));
    r := ClearClaim(r);
    r := Bumped(r, now);
  }

  method ApplyGiveUp(record: Record, ghost key: ClaimKey, code: FailureCode, detailSHA256: string, now: Time) returns (r: Record)
    ensures r == Next(record, GiveUp(now, key, code, detailSHA256))
  {
    r := HandedOver(record, now);
    r := ApplyFailure(r, code, detailSHA256, now);
  }

  method ApplyExhaustion(record: Record, detailSHA256: string, now: Time) returns (r: Record)
    ensures r == Next(record, Exhaust(now, detailSHA256))
  {
    r := HandedOver(record, now);
    r := ApplyFailure(r, Unknown, detailSHA256, now);
  }

  method RecoverRecord(sha: Hash, record: Record, c: Call) returns (r: Record)
    requires Recovery(c)
    ensures r == Next(record, RecoveryLabel(sha, c))
  {
    hide Next;
    if c.RecoverPrepared? {
      r := ApplyNoCredential(record, c.now);
    } else {
      r := ApplyExhaustion(record, sha(FailureDetailExhaustedWithoutAck), c.now);
    }
  }

  method ClaimRecordNow(sha: Hash, record: Record, id: string, c: Call, token: string)
    returns (r: Record, issued: seq<ClaimedRevocation>)
    requires c.ClaimRevocations?
    ensures r == ClaimedRecord(sha, record, c, token, c.poison(id))
    ensures issued == IssuedClaim(sha, record, id, c, token)
  {
    hide Play, Next, ClaimSteps, IssuedClaim;
    ClaimStepsPlayed(sha, record, id, c, token);
    r := ApplyClaim(record, c.workerID, c.lease, sha(token), c.now);
    if c.poison(id) {
      ghost var key := ClaimKey(c.workerID, sha(token), record.rev.claimEpoch + 1);
      r := ApplyGiveUp(r, key, InvalidReference, sha(FailureDetailProtectedRefInvalid), c.now);
      issued := [];
    } else {
      issued := [ClaimedRevocation(r.rev, ClaimFence(id, c.workerID, token, r.rev.claimEpoch))];
    }
  }

  method ApplyRequeue(record: Record, now: Time) returns (r: Record)
    ensures r == Next(record, Requeue(now))
  {
    r := record.(rev := record.rev.(status := RevocationPending));
    r := r.(rev := r.rev.(availableAt := now));
    r := r.(cycleAttemptBase := r.rev.attempt);
    r := r.(cycleStartedAt := now);
    r := Bumped(r, now);
  }

  /** Called once the guards of SubmitExternalConfirmation have passed. */
  method ApplyConfirmation(record: Record, subject: string, evidence: string, admin: bool, now: Time) returns (r: Record)
    requires subject !in record.confirmations
    requires |record.confirmations| >= 1 ==> admin || HasAdmin(record.confirmations)
    ensures r == Next(record, Confirm(now, subject, evidence, admin))
  {
    r := record.(confirmations := record.confirmations[subject := Confirmation(subject, evidence, admin, now)]);
    r := r.(rev := r.rev.(evidenceHash := evidence));
    r := Bumped(r, now);
    if |r.confirmations| >= 2 {
      // The code would undo the confirmation here if no administrator had confirmed; its own guard excludes that.
      AdminAmongTwo(record.confirmations, subject, Confirmation(subject, evidence, admin, now));
      assert HasAdmin(r.confirmations);
      r := r.(rev := r.rev.(status := Revoked));
      r := r.(rev := r.rev.(revokedAt := now));
      r := ClearReference(r);
    }
  }

  lemma FenceOutlivesSteps(r: Record, l: Label, i: Inspection, now: Time, window: Duration)
    ensures FenceCurrent(Next(r, l), i, now, window) == FenceCurrent(r, i, now, window)
  {
    StepBumpsVersion(r, l);
    hide Next;
  }

  /** The outcome of a decision on one record. */
  ghost predicate Follows(r: Record, steps: Result<seq<Label>>, outcome: Result<Record>) {
    match steps case Err(error) => outcome == Err(error) case Ok(ls) => outcome == Ok(Play(r, ls))
  }

  lemma YieldsStore(sha: Hash, s: Store, c: Call)
    requires OnOneRecord(c)
    ensures forall a, reply | Yields(sha, s, c, a, reply) :: a == After(sha, s, c)
  {
    hide After, RevocationReply;
  }

  /** The part of AuthorizeChildCreate that runs once the record is found. */
  method AuthorizeRecord(sha: Hash, record: Record, token: string, fence: ActionFence, inspection: Inspection, now: Time)
    returns (outcome: Result<Record>)
    ensures Follows(record, AuthorizeSteps(sha, record, token, fence, inspection, now), outcome)
  {
    hide Play, Next, FenceCurrent, FenceMatches, ScopeMatches, ChildTTLAt;
    var r := record;
    var m := inspection.metadata;
    if !FenceMatches(sha, r, fence) || !ScopeMatches(r, m)
       || r.rev.frozen.credentialExpiresAt > m.authorizationExpiresAt || !FenceCurrent(r, inspection, now, 0) {
      return Err(StaleActionFence);
    }
    var minimumExpiry := now + ChildCreateExpiryReserve + MinPostChildFenceWindow;
    if m.leaseExpiresAt < minimumExpiry || m.authorizationExpiresAt < minimumExpiry { return Err(StaleActionFence); }
    if r.permitSHA256 != sha(token) { return Err(StaleChildCreatePermit); }
    if r.rev.status != Prepared || r.protected.ciphertext != "" { return Err(InvalidTransition); }
    if r.childAuthorizedAt != Zero { return Err(ChildCreateAlreadyAuthorized); }
    var ttl := ChildTTLAt(r, now);
    if ttl < MinChildCreateTTL { return Err(ChildCreateWindowExpired); }
    PlaySteps(record, Authorize(now, ttl), Authorize(now, ttl));
    r := ApplyAuthorization(r, ttl, now);
    return Ok(r);
  }

  /** The part of RecordAnchor that runs once the fence is known to match. */
  method AnchorRecord(record: Record, inspection: Inspection, protector: Protector, now: Time, finalNow: Time)
    returns (outcome: Result<Record>)
    ensures Follows(record,
                    AnchorWhen(record, FenceCurrent(record, inspection, now, 0)
                                       && FenceCurrent(record, inspection, finalNow, MinPostChildFenceWindow),
                               protector, finalNow),
                    outcome)
  {
    hide Play, Next, FenceCurrent;
    var r := record;
    PlaySteps(r, Request(finalNow), Request(finalNow));
    if r.childAuthorizedAt == Zero { return Err(InvalidTransition); }
    var current := FenceCurrent(r, inspection, now, 0);
    if r.rev.status != Prepared {
      if r.rev.status == NoCredential || r.rev.status == Revoked || r.protected.ciphertext == "" { return Err(InvalidTransition); }
      if protector.matches.None? { return Err(ReferenceProtection); }
      if !protector.matches.value { return Err(IdempotencyConflict); }
      if r.rev.status == Anchored || r.rev.status == Active {
        current := current && FenceCurrent(r, inspection, finalNow, MinPostChildFenceWindow);
        if !current {
          outcome := ApplyRequestRevocation(r, finalNow);
          return;
        }
      }
      return Ok(r);
    }
    if protector.protect.None? { return Err(ReferenceProtection); }
    current := current && FenceCurrent(r, inspection, finalNow, MinPostChildFenceWindow);
    PlaySteps(record, Anchor(finalNow, protector.protect.value), Request(finalNow));
    r := ApplyAnchor(r, protector.protect.value, finalNow);
    if !current {
      AnchoredThenQueued(record, protector.protect.value, finalNow);
      outcome := ApplyRequestRevocation(r, finalNow);
      return;
    }
    return Ok(r);
  }

  lemma AnchoredThenQueued(r: Record, p: ProtectedReference, now: Time)
    ensures var a := Next(r, Anchor(now, p));
            RequestSteps(a, now) == Ok([Request(now)]) && Play(a, [Request(now)]) == Next(a, Request(now))
  {
    PlaySteps(Next(r, Anchor(now, p)), Request(now), Request(now));
  }

  /** The part of Activate that runs once the fence is known to match. */
  method ActivateRecord(record: Record, inspection: Inspection, now: Time, finalNow: Time) returns (outcome: Result<Record>)
    ensures Follows(record,
                    ActivateWhen(record, FenceCurrent(record, inspection, now, 0),
                                 FenceCurrent(record, inspection, finalNow, MinPostChildFenceWindow), now, finalNow),
                    outcome)
  {
    hide Play, Next, FenceCurrent;
    var r := record;
    PlaySteps(record, Request(now), Request(now));
    PlaySteps(record, Request(finalNow), Request(finalNow));
    PlaySteps(record, MarkActive(now), Request(finalNow));
    FenceOutlivesSteps(record, MarkActive(now), inspection, finalNow, MinPostChildFenceWindow);
    var current := FenceCurrent(r, inspection, now, 0);
    match r.rev.status {
      case Anchored =>
        if !current {
          outcome := ApplyRequestRevocation(r, now);
          return;
        }
        r := ApplyActivation(r, now);
        ActiveThenQueued(record, now, finalNow);
      case Active =>
      case Prepared => return Err(InvalidTransition);
      case NoCredential => return Err(InvalidTransition);
      case _ => return Ok(r);
    }
    if !FenceCurrent(r, inspection, finalNow, MinPostChildFenceWindow) {
      outcome := ApplyRequestRevocation(r, finalNow);
      return;
    }
    return Ok(r);
  }

  lemma ActiveThenQueued(r: Record, now: Time, last: Time)
    ensures var a := Next(r, MarkActive(now));
            RequestSteps(a, last) == Ok([Request(last)]) && Play(a, [Request(last)]) == Next(a, Request(last))
  {
    PlaySteps(Next(r, MarkActive(now)), Request(last), Request(last));
  }

  method NoCredentialRecord(record: Record, now: Time) returns (outcome: Result<Record>)
    ensures Follows(record, NoCredentialWhen(record, now), outcome)
  {
    hide Play, Next;
    PlaySteps(record, MarkNoCredential(now), MarkNoCredential(now));
    match record.rev.status {
      case Prepared =>
        if record.childAuthorizedAt != Zero { return Err(InvalidTransition); }
        var r := ApplyNoCredential(record, now);
        return Ok(r);
      case NoCredential => return Ok(record);
      case _ => return Err(InvalidTransition);
    }
  }

  method RecoverManagedRecord(record: Record, inspection: Inspection, now: Time) returns (changed: Option<Record>)
    ensures RecoverManagedSteps(record, inspection, now) == Ok(if changed.Some? then [Request(now)] else [])
    ensures changed.Some? ==> changed.value == Next(record, Request(now)) && changed.value != record
  {
    hide Next, FenceCurrent, ScopeMatches;
    if record.rev.status != Anchored && record.rev.status != Active { return None; }
    var current := ScopeMatches(record, inspection.metadata) && FenceCurrent(record, inspection, now, MinPostChildFenceWindow);
    if record.rev.status == Anchored && record.rev.anchoredAt + ManagedAnchorRecoveryGrace <= now { current := false; }
    if current { return None; }
    StepBumpsVersion(record, Request(now));
    var r := ApplyQueue(record, now);
    return Some(r);
  }

  function ManagedKeys(records: map<string, Record>): set<SortKey> {
    set id | id in records && Live(records[id]) ::
      SortKey(if records[id].rev.status == Active then records[id].rev.activatedAt else records[id].rev.anchoredAt, Zero, id)
  }

  ghost function ManagedInOrder(records: map<string, Record>): seq<SortKey> {
    Batch(ManagedKeys(records), |ManagedKeys(records)|)
  }

  /** What RecoverManaged meets: the action source and the clock at each turn, and the calls of others just before it. */
  datatype Surroundings = Surroundings(gates: nat -> Gate, clock: nat -> Time, others: nat -> seq<Call>)

  function Turn(candidates: seq<SortKey>, x: Surroundings, i: nat): Call
    requires i < |candidates|
  {
    RecoverManagedOne(candidates[i].id, x.gates(i), x.clock(i))
  }

  /** The calls that reach the repository during the first n turns. */
  ghost function Interleaved(candidates: seq<SortKey>, x: Surroundings, n: nat): seq<Call>
    requires n <= |candidates|
  {
    if n == 0 then [] else Interleaved(candidates, x, n - 1) + x.others(n - 1) + [Turn(candidates, x, n - 1)]
  }

  /** The records that the first n turns changed, each as its turn left it. */
  ghost function Transitioned(sha: Hash, s: Store, candidates: seq<SortKey>, x: Surroundings, n: nat): seq<Revocation>
    requires n <= |candidates|
  {
    if n == 0 then []
    else
      Transitioned(sha, s, candidates, x, n - 1)
      + TransitionedBy(sha, Run(sha, s, Interleaved(candidates, x, n - 1) + x.others(n - 1)), Turn(candidates, x, n - 1))
  }

  ghost function TransitionedBy(sha: Hash, s: Store, c: Call): seq<Revocation> {
    if c.RecoverManagedOne? && After(sha, s, c) != s && c.id in After(sha, s, c).records
    then [After(sha, s, c).records[c.id].rev] else []
  }

  lemma RecoversOrNot(r: Record, gate: Gate, now: Time)
    requires gate.Admitted?
    ensures var steps := RecoverManagedSteps(r, gate.inspection, now); steps == Ok([Request(now)]) || steps == Ok([])
  {
    hide Live, ScopeMatches, FenceCurrent;
  }

  /** The store that RecoverManaged leaves after one candidate. */
  lemma RecoveredStore(sha: Hash, s: Store, id: string, gate: Gate, now: Time)
    ensures After(sha, s, RecoverManagedOne(id, gate, now)) ==
              if gate.Admitted? && id in s.records && RecoverManagedSteps(s.records[id], gate.inspection, now) == Ok([Request(now)])
              then Store(s.records[id := Next(s.records[id], Request(now))], s.epochs) else s
  {
    hide *;
    var c := RecoverManagedOne(id, gate, now);
    RecoveryDecides(sha, s, id, gate, now);
    YieldsStore(sha, s, c);
    Decided(sha, s, c);
    if gate.Admitted? && id in s.records {
      RecoversOrNot(s.records[id], gate, now);
      PlaySteps(s.records[id], Request(now), Request(now));
      assert Store(s.records[id := s.records[id]], s.epochs) == s;
    }
  }

  lemma RecoveryDecides(sha: Hash, s: Store, id: string, gate: Gate, now: Time)
    ensures var c := RecoverManagedOne(id, gate, now);
            && OnOneRecord(c) && Target(c) == id
            && Decision(sha, s, c) == if gate.Blocked? then Err(gate.error) else if id !in s.records then Err(NotFound)
                                      else RecoverManagedSteps(s.records[id], gate.inspection, now)
  {
    hide Decision, RecoverManagedSteps;
    GatedDecision(sha, s, RecoverManagedOne(id, gate, now));
  }

  lemma TransitionedExactly(sha: Hash, s: Store, c: Call, after: Store, changed: Option<Revocation>)
    requires c.RecoverManagedOne? && after == After(sha, s, c)
    requires if changed.Some? then after != s && c.id in after.records && after.records[c.id].rev == changed.value else after == s
    ensures TransitionedBy(sha, s, c) == if changed.Some? then [changed.value] else []
  {
    hide After;
  }

  lemma OneMoreTurn(sha: Hash, s: Store, candidates: seq<SortKey>, x: Surroundings, i: nat)
    requires i < |candidates|
    ensures var before := Interleaved(candidates, x, i) + x.others(i);
            && Run(sha, s, before) == Run(sha, Run(sha, s, Interleaved(candidates, x, i)), x.others(i))
            && Run(sha, s, Interleaved(candidates, x, i + 1)) == After(sha, Run(sha, s, before), Turn(candidates, x, i))
            && Transitioned(sha, s, candidates, x, i + 1)
               == Transitioned(sha, s, candidates, x, i) + TransitionedBy(sha, Run(sha, s, before), Turn(candidates, x, i))
  {
    hide Run, After, TransitionedBy, Turn;
    RunSplit(sha, s, Interleaved(candidates, x, i), x.others(i));
    RunNext(sha, s, Interleaved(candidates, x, i) + x.others(i), Turn(candidates, x, i));
  }

  /** The error a gate ends a recovery with, if any. */
  function GateError(gate: Gate): Option<Error> {
    if gate.Blocked? then Some(gate.error) else gate.afterwards
  }

  /**
   What RecoverManaged does: it takes the records that were managed when it began in order, whatever others do to them in
   the meantime, stops at the limit or at the first error, and returns what the turns before that changed.
   */
  ghost predicate Recovered(sha: Hash, s: Store, candidates: seq<SortKey>, limit: int, x: Surroundings, turns: nat,
                            recovered: seq<Revocation>, error: Option<Error>, after: Store) {
    && turns <= |candidates| && |recovered| <= limit && after == Run(sha, s, Interleaved(candidates, x, turns))
    && if error.None? then
         && recovered == Transitioned(sha, s, candidates, x, turns) && NoErrors(x.gates, turns)
         && (|recovered| == limit || turns == |candidates|)
       else
         && turns > 0 && error == GateError(x.gates(turns - 1)) && |recovered| < limit
         && recovered == Transitioned(sha, s, candidates, x, turns - 1) && NoErrors(x.gates, turns - 1)
  }

  ghost predicate NoErrors(gates: nat -> Gate, n: nat) {
    forall i | 0 <= i < n :: GateError(gates(i)).None?
  }

  /** Where RecoverManaged stands after i turns without an error. */
  ghost predicate Recovering(sha: Hash, s: Store, candidates: seq<SortKey>, x: Surroundings, i: nat, recovered: seq<Revocation>, now: Store) {
    && i <= |candidates| && NoErrors(x.gates, i)
    && now == Run(sha, s, Interleaved(candidates, x, i)) && recovered == Transitioned(sha, s, candidates, x, i)
  }

  lemma RecoveringStarts(sha: Hash, s: Store, candidates: seq<SortKey>, x: Surroundings)
    ensures Recovering(sha, s, candidates, x, 0, [], s)
  {
    hide Run;
    RunNothing(sha, s);
  }

  /** One turn leads on, or ends the call with its error. */
  ghost predicate TurnTaken(sha: Hash, s: Store, candidates: seq<SortKey>, x: Surroundings, i: nat,
                            transitioned: Result<Option<Revocation>>, after: Store) {
    && i < |candidates| && after == Run(sha, s, Interleaved(candidates, x, i + 1))
    && GateError(x.gates(i)) == (if transitioned.Err? then Some(transitioned.error) else None)
    && (transitioned.Ok? ==>
          Transitioned(sha, s, candidates, x, i + 1)
          == Transitioned(sha, s, candidates, x, i) + if transitioned.value.Some? then [transitioned.value.value] else [])
  }

  lemma TurnLeadsOn(sha: Hash, s: Store, candidates: seq<SortKey>, x: Surroundings, i: nat, recovered: seq<Revocation>, now: Store,
                    limit: int, transitioned: Result<Option<Revocation>>, after: Store)
    requires Recovering(sha, s, candidates, x, i, recovered, now) && TurnTaken(sha, s, candidates, x, i, transitioned, after)
    requires |recovered| < limit
    ensures transitioned.Err? ==> Recovered(sha, s, candidates, limit, x, i + 1, recovered, Some(transitioned.error), after)
    ensures transitioned.Ok? ==>
              Recovering(sha, s, candidates, x, i + 1, recovered + if transitioned.value.Some? then [transitioned.value.value] else [], after)
  {
    hide Run, Interleaved, Transitioned, GateError;
  }

  lemma RecoveringEnds(sha: Hash, s: Store, candidates: seq<SortKey>, x: Surroundings, i: nat, recovered: seq<Revocation>, now: Store, limit: int)
    requires Recovering(sha, s, candidates, x, i, recovered, now) && |recovered| <= limit
    requires i == |candidates| || |recovered| == limit
    ensures Recovered(sha, s, candidates, limit, x, i, recovered, None, now)
  {
    hide Run, Interleaved, Transitioned, GateError;
  }

  lemma RecoveringWithin(sha: Hash, s: Store, candidates: seq<SortKey>, x: Surroundings, i: nat, recovered: seq<Revocation>, now: Store)
    requires Recovering(sha, s, candidates, x, i, recovered, now)
    ensures i <= |candidates| && now == Run(sha, s, Interleaved(candidates, x, i))
  {
    hide Run, Interleaved, Transitioned, GateError;
  }

  lemma RunNext(sha: Hash, s: Store, calls: seq<Call>, c: Call)
    ensures Run(sha, s, calls + [c]) == After(sha, Run(sha, s, calls), c)
  {
    hide After;
    RunSplit(sha, s, calls, [c]);
    assert [c][1..] == [];
    RunNothing(sha, After(sha, Run(sha, s, calls), c));
  }

  method CompleteRecord(record: Record, key: ClaimKey, now: Time) returns (outcome: Result<Record>)
    ensures Follows(record, CompleteSteps(record, key, now), outcome)
  {
    hide Play, Next, HoldsClaim;
    PlaySteps(record, Complete(now, key), Complete(now, key));
    if record.rev.status == Revoked {
      if record.completedClaimSHA256 == key.tokenSHA256 && record.completedClaimEpoch == key.epoch
         && record.completedClaimWorker == key.worker {
        return Ok(record);
      }
      return Err(StaleClaim);
    }
    if !HoldsClaim(record, key, now) { return Err(StaleClaim); }
    var r := ApplyCompletion(record, key, now);
    return Ok(r);
  }

  method RequeueRecord(record: Record, now: Time) returns (outcome: Result<Record>)
    ensures Follows(record, RequeueSteps(record, now), outcome)
  {
    hide Play, Next;
    PlaySteps(record, Requeue(now), Requeue(now));
    if record.rev.status == RevocationPending { return Ok(record); }
    if record.rev.status != ManualRequired || record.rev.evidenceHash != "" || |record.confirmations| != 0 {
      return Err(InvalidTransition);
    }
    var r := ApplyRequeue(record, now);
    return Ok(r);
  }

  function Rescheduled(r: Record, delay: Duration, now: Time): Record {
    if Exhausted(r, now) then HandedOver(r, now)
    else r.(rev := r.rev.(status := RevocationPending, availableAt := now + delay))
  }

  function HandedOver(r: Record, now: Time): Record {
    r.(rev := r.rev.(status := ManualRequired, manualRequiredAt := now))
  }

  lemma RetriedRecord(r: Record, key: ClaimKey, delay: Duration, code: FailureCode, detailSHA256: string, now: Time)
    ensures RetrySteps(r, key, delay, code, detailSHA256, now).Ok? ==>
              Play(r, RetrySteps(r, key, delay, code, detailSHA256, now).value)
              == Bumped(ClearClaim(Failed(Rescheduled(r, delay, now), code, detailSHA256)), now)
  {
    hide Play, HoldsClaim, Exhausted;
    var retry, manual := Retry(now, key, delay, code, detailSHA256), GiveUp(now, key, code, detailSHA256);
    PlaySteps(r, retry, retry);
    PlaySteps(r, manual, manual);
  }

  lemma GivenUpRecord(r: Record, key: ClaimKey, code: FailureCode, detailSHA256: string, now: Time)
    ensures ManualSteps(r, key, code, detailSHA256, now).Ok? ==>
              Play(r, ManualSteps(r, key, code, detailSHA256, now).value)
              == Bumped(ClearClaim(Failed(HandedOver(r, now), code, detailSHA256)), now)
  {
    hide Play, HoldsClaim;
    var manual := GiveUp(now, key, code, detailSHA256);
    PlaySteps(r, manual, manual);
  }

  /** The part of SubmitExternalConfirmation that runs once the record is found. */
  method ConfirmRecord(record: Record, subject: string, evidence: string, admin: bool, now: Time) returns (outcome: Result<Record>)
    ensures Follows(record, ConfirmSteps(record, subject, evidence, admin, now), outcome)
  {
    hide Play, Next, HasAdmin;
    var r := record;
    PlaySteps(r, Confirm(now, subject, evidence, admin), Confirm(now, subject, evidence, admin));
    if r.rev.status != ManualRequired && r.rev.status != Revoked { return Err(InvalidTransition); }
    if r.rev.evidenceHash != "" && r.rev.evidenceHash != evidence { return Err(EvidenceConflict); }
    if subject in r.confirmations {
      var existing := r.confirmations[subject];
      if existing.evidenceHash != evidence || existing.platformAdmin != admin { return Err(EvidenceConflict); }
      return Ok(r);
    }
    if r.rev.status == Revoked { return Err(InvalidTransition); }
    if |r.confirmations| >= 1 && !admin && !HasAdmin(r.confirmations) { return Err(PlatformAdminRequired); }
    r := ApplyConfirmation(r, subject, evidence, admin, now);
    return Ok(r);
  }

  /** The checks of Prepare before it takes the lock, in the order the code makes them. */
  method ValidatePrepare(c: Call) returns (refusal: Option<Error>)
    requires c.Prepare?
    ensures refusal == PrepareRefusal(c)
  {
    hide ValidUUID, ValidActionFence, ValidOpaqueText, ValidIdentifier, Resolves, CanonicalCredentialExpiry;
    var q := c.request;
    var expires := CanonicalCredentialExpiry(q.credentialExpiresAt);
    if !ValidUUID(q.revocationID) || !ValidActionFence(q.fence) || !ValidOpaqueText(q.issuer, 256)
       || !ValidIdentifier(q.issuerRevision, 256) || expires == Zero || expires <= c.now
       || expires > CanonicalCredentialExpiry(c.now + MaxCredentialTTL) {
      return Some(InvalidRequest);
    }
    if !ResolvesForPrepare(q.fence, c.first, c.now) { return Some(StaleActionFence); }
    var metadata := c.first.value;
    if metadata.scope.production { return Some(InvalidRequest); }
    if expires > metadata.authorizationExpiresAt || expires > SignedCredentialExpiry(c.now, metadata.scope.ttlSeconds) {
      return Some(InvalidRequest);
    }
    if !ResolvesForPrepare(q.fence, c.second, c.finalNow) { return Some(StaleActionFence); }
    var revalidated := c.second.value;
    if metadata.scope != revalidated.scope { return Some(StaleActionFence); }
    if expires > revalidated.authorizationExpiresAt || expires > SignedCredentialExpiry(c.finalNow, revalidated.scope.ttlSeconds) {
      return Some(StaleActionFence);
    }
    return None;
  }

  // ---------------------------------------------------------------- the repository

  class MemoryRepository {
    const sha: Hash
    var records: map<string, Record>
    var actionEpochs: map<string, string>

    ghost function Contents(): (s: Store)
      reads this
      ensures s == Store(records, actionEpochs)
    {
      Store(records, actionEpochs)
    }

    constructor (sha: Hash)
      ensures this.sha == sha && Contents() == EmptyStore
    {
      this.sha := sha;
      records, actionEpochs := map[], map[];
    }

    method Prepare(request: PrepareRequest, now: Time, first: Option<Metadata>, finalNow: Time, second: Option<Metadata>,
                   permitToken: Option<string>) returns (reply: Result<PrepareResult>)
      modifies this
      ensures Contents() == After(sha, old(Contents()), Call.Prepare(request, now, first, finalNow, second, permitToken))
      ensures reply == PrepareReply(sha, old(Contents()), Call.Prepare(request, now, first, finalNow, second, permitToken))
    {
      hide After, PrepareRefusal, SamePrepare, NewRecord, ActionEpochKey, ValidOpaqueText;
      ghost var s := Contents();
      var c := Call.Prepare(request, now, first, finalNow, second, permitToken);
      StoreAfter(sha, s, c);
      var refusal := ValidatePrepare(c);
      if refusal.Some? { return Err(refusal.value); }
      AdmittedResolves(c);
      var metadata := second.value;
      var id, key := request.revocationID, ActionEpochKey(request.fence.actionID, request.fence.epoch);
      if key in actionEpochs {
        var existing := actionEpochs[key];
        if existing !in records || !SamePrepare(sha, records[existing], c, metadata) { return Err(IdempotencyConflict); }
        if id in records && id != existing { return Err(IdempotencyConflict); }
        return Ok(PrepareResult(records[existing].rev, false, None));
      }
      if id in records {
        if !SamePrepare(sha, records[id], c, metadata) { return Err(IdempotencyConflict); }
        return Ok(PrepareResult(records[id].rev, false, None));
      }
      if permitToken.None? || !ValidOpaqueText(permitToken.value, 4096) { return Err(PersistenceFailed); }
      var r := NewRecord(sha, c, metadata, permitToken.value);
      records := records[id := r];
      actionEpochs := actionEpochs[key := id];
      return Ok(PrepareResult(r.rev, true, Some(Permit(id, permitToken.value))));
    }

    method AuthorizeChildCreate(permit: Permit, fence: ActionFence, gate: Gate, now: Time)
      returns (reply: Result<ChildCreateAuthorization>)
      modifies this
      ensures Contents() == After(sha, old(Contents()), Call.AuthorizeChildCreate(permit, fence, gate, now))
      ensures reply == AuthorizeReply(sha, old(Contents()), Call.AuthorizeChildCreate(permit, fence, gate, now))
    {
      hide After, Yields, Decision, Play, AnsweredRecord, RevocationReply, AuthorizeSteps;
      hide ValidUUID, ValidOpaqueText, ValidActionFence, Target, Afterwards, OnOneRecord;
      ghost var s, c := Contents(), Call.AuthorizeChildCreate(permit, fence, gate, now);
      GatedDecision(sha, s, c);
      Decided(sha, s, c);
      YieldsStore(sha, s, c);
      if !ValidUUID(permit.revocationID) || !ValidOpaqueText(permit.token, 4096) || !ValidActionFence(fence) {
        return Err(InvalidRequest);
      }
      if gate.Blocked? { return Err(gate.error); }
      var id := permit.revocationID;
      if id !in records { return Err(NotFound); }
      var changed := AuthorizeRecord(sha, records[id], permit.token, fence, gate.inspection, now);
      if changed.Err? { return Err(changed.error); }
      var r := changed.value;
      records := records[id := r];
      return Answer(gate.afterwards,
                    ChildCreateAuthorization(r.rev, now, r.rev.frozen.credentialExpiresAt, r.childTTL, ChildCreateVaultCallBudget));
    }

    method RecordAnchor(id: string, fence: ActionFence, accessorPresent: bool, gate: Gate, protector: Protector,
                        now: Time, finalNow: Time) returns (reply: Result<Revocation>)
      modifies this
      ensures Yields(sha, old(Contents()), Call.RecordAnchor(id, fence, accessorPresent, gate, protector, now, finalNow),
                     Contents(), reply)
    {
      hide Yields, Decision, Play, Next, AnsweredRecord, FenceMatches, ScopeMatches, FenceCurrent;
      hide ValidUUID, ValidActionFence, Target, Afterwards, OnOneRecord;
      ghost var s, c := Contents(), Call.RecordAnchor(id, fence, accessorPresent, gate, protector, now, finalNow);
      GatedDecision(sha, s, c);
      Decided(sha, s, c);
      if !ValidUUID(id) || !ValidActionFence(fence) || !accessorPresent { return Err(InvalidRequest); }
      if gate.Blocked? { return Err(gate.error); }
      var inspection := gate.inspection;
      if id !in records { return Err(NotFound); }
      var r := records[id];
      if !FenceMatches(sha, r, fence) || !ScopeMatches(r, inspection.metadata) { return Err(StaleActionFence); }
      var changed := AnchorRecord(r, inspection, protector, now, finalNow);
      if changed.Err? { return Err(changed.error); }
      records := records[id := changed.value];
      return Answer(gate.afterwards, changed.value.rev);
    }

    method Activate(id: string, fence: ActionFence, gate: Gate, now: Time, finalNow: Time) returns (reply: Result<Revocation>)
      modifies this
      ensures Yields(sha, old(Contents()), Call.Activate(id, fence, gate, now, finalNow), Contents(), reply)
    {
      hide Yields, Decision, Play, Next, AnsweredRecord, FenceMatches, ScopeMatches, FenceCurrent;
      hide ValidUUID, ValidActionFence, Target, Afterwards, OnOneRecord;
      ghost var s, c := Contents(), Call.Activate(id, fence, gate, now, finalNow);
      GatedDecision(sha, s, c);
      Decided(sha, s, c);
      if !ValidUUID(id) || !ValidActionFence(fence) { return Err(InvalidRequest); }
      if gate.Blocked? { return Err(gate.error); }
      var inspection := gate.inspection;
      if id !in records { return Err(NotFound); }
      var r := records[id];
      if !FenceMatches(sha, r, fence) || !ScopeMatches(r, inspection.metadata) { return Err(StaleActionFence); }
      var changed := ActivateRecord(r, inspection, now, finalNow);
      if changed.Err? { return Err(changed.error); }
      records := records[id := changed.value];
      return Answer(gate.afterwards, changed.value.rev);
    }

    method RecordNoCredential(id: string, fence: ActionFence, metadata: Option<Metadata>, now: Time)
      returns (reply: Result<Revocation>)
      modifies this
      ensures Yields(sha, old(Contents()), Call.RecordNoCredential(id, fence, metadata, now), Contents(), reply)
    {
      hide Yields, Decision, Play, AnsweredRecord, ActionLookup, NoCredentialWhen, Target, Afterwards, OnOneRecord;
      ghost var s, c := Contents(), Call.RecordNoCredential(id, fence, metadata, now);
      LookupDecision(sha, s, c);
      var found := ActionRecord(id, fence, metadata, now);
      Decided(sha, s, c);
      if found.Err? { return Err(found.error); }
      var changed := NoCredentialRecord(found.value, now);
      if changed.Err? { return Err(changed.error); }
      records := records[id := changed.value];
      return Ok(changed.value.rev);
    }

    method ActionRecord(id: string, fence: ActionFence, metadata: Option<Metadata>, now: Time) returns (found: Result<Record>)
      ensures found == ActionLookup(sha, records, id, fence, metadata, now)
    {
      hide ValidUUID, ValidActionFence, FenceMatches, Resolves;
      if !ValidUUID(id) || !ValidActionFence(fence) { return Err(InvalidRequest); }
      if !Resolves(fence, metadata, now) { return Err(StaleActionFence); }
      if id !in records { return Err(NotFound); }
      var r := records[id];
      if !FenceMatches(sha, r, fence) || r.rev.frozen.scope != metadata.value.scope { return Err(StaleActionFence); }
      return Ok(r);
    }

    method RequestRevocation(id: string, fence: ActionFence, metadata: Option<Metadata>, now: Time)
      returns (reply: Result<Revocation>)
      modifies this
      ensures Yields(sha, old(Contents()), Call.RequestRevocation(id, fence, metadata, now), Contents(), reply)
    {
      hide Yields, Decision, Play, AnsweredRecord, ActionLookup, RequestSteps, ValidUUID, Target, Afterwards, OnOneRecord;
      ghost var s, c := Contents(), Call.RequestRevocation(id, fence, metadata, now);
      var r: Record;
      if fence == NoFence {
        OperatorDecision(sha, s, c);
        if !ValidUUID(id) {
          Decided(sha, s, c);
          return Err(InvalidRequest);
        }
        if id !in records {
          Decided(sha, s, c);
          return Err(NotFound);
        }
        r := records[id];
      } else {
        LookupDecision(sha, s, c);
        var found := ActionRecord(id, fence, metadata, now);
        if found.Err? {
          Decided(sha, s, c);
          return Err(found.error);
        }
        r := found.value;
      }
      Decided(sha, s, c);
      var changed := ApplyRequestRevocation(r, now);
      if changed.Err? { return Err(changed.error); }
      records := records[id := changed.value];
      return Ok(changed.value.rev);
    }

    method Heartbeat(claim: ClaimFence, extension: Duration, now: Time) returns (reply: Result<Revocation>)
      modifies this
      ensures Yields(sha, old(Contents()), HeartbeatClaim(claim, extension, now), Contents(), reply)
    {
      hide Yields, Decision, Play, Next, AnsweredRecord, HoldsClaim, ValidClaimFence, ValidClaimDuration, Target, Afterwards, OnOneRecord;
      ghost var s, c := Contents(), HeartbeatClaim(claim, extension, now);
      ClaimDecision(sha, s, c);
      Decided(sha, s, c);
      if !ValidClaimFence(claim) || !ValidClaimDuration(extension) { return Err(InvalidRequest); }
      var found := ClaimRecord(claim, now);
      if found.Err? { return Err(found.error); }
      ghost var l := Label.Heartbeat(now, KeyOf(sha, claim), extension);
      PlaySteps(found.value, l, l);
      var r := ApplyHeartbeat(found.value, KeyOf(sha, claim), extension, now);
      records := records[claim.revocationID := r];
      return Ok(r.rev);
    }

    method ClaimRecord(claim: ClaimFence, now: Time) returns (found: Result<Record>)
      ensures found ==
        if claim.revocationID !in records then Err(NotFound)
        else if !HoldsClaim(records[claim.revocationID], KeyOf(sha, claim), now) then Err(StaleClaim)
        else Ok(records[claim.revocationID])
    {
      hide HoldsClaim;
      if claim.revocationID !in records { return Err(NotFound); }
      var r := records[claim.revocationID];
      if !HoldsClaim(r, KeyOf(sha, claim), now) { return Err(StaleClaim); }
      return Ok(r);
    }

    method CompleteRevocation(claim: ClaimFence, now: Time) returns (reply: Result<Revocation>)
      modifies this
      ensures Yields(sha, old(Contents()), Call.CompleteRevocation(claim, now), Contents(), reply)
    {
      hide Yields, Decision, Play, AnsweredRecord, CompleteSteps, ValidClaimFence, Target, Afterwards, OnOneRecord;
      ghost var s, c := Contents(), Call.CompleteRevocation(claim, now);
      ClaimDecision(sha, s, c);
      Decided(sha, s, c);
      if !ValidClaimFence(claim) { return Err(InvalidRequest); }
      var id := claim.revocationID;
      if id !in records { return Err(NotFound); }
      var changed := CompleteRecord(records[id], KeyOf(sha, claim), now);
      if changed.Err? { return Err(changed.error); }
      records := records[id := changed.value];
      return Ok(changed.value.rev);
    }

    /** Fails the claim after `transition` has decided where the record goes. */
    method FailClaim(claim: ClaimFence, code: FailureCode, detail: string, transition: Record -> Record, now: Time)
      returns (reply: Result<Revocation>)
      modifies this
      ensures
        var id := claim.revocationID;
        var found := id in old(records) && HoldsClaim(old(records)[id], KeyOf(sha, claim), now);
        if !ValidClaimFence(claim) then Contents() == old(Contents()) && reply == Err(InvalidRequest)
        else if !found then Contents() == old(Contents()) && reply == Err(if id in old(records) then StaleClaim else NotFound)
        else
          var r := Bumped(ClearClaim(Failed(transition(old(records)[id]), code, sha(detail))), now);
          Contents() == Store(old(records)[id := r], old(actionEpochs)) && reply == Ok(r.rev)
    {
      hide HoldsClaim, ValidClaimFence, Bumped, ClearClaim, Failed;
      if !ValidClaimFence(claim) { return Err(InvalidRequest); }
      var found := ClaimRecord(claim, now);
      if found.Err? { return Err(found.error); }
      var r := ApplyFailure(transition(found.value), code, sha(detail), now);
      records := records[claim.revocationID := r];
      return Ok(r.rev);
    }

    method RetryRevocation(claim: ClaimFence, delay: Duration, code: FailureCode, detail: string, now: Time)
      returns (reply: Result<Revocation>)
      modifies this
      ensures Yields(sha, old(Contents()), Call.RetryRevocation(claim, delay, code, detail, now), Contents(), reply)
    {
      hide Yields, Decision, Play, Next, AnsweredRecord, HoldsClaim, ValidClaimFence, ValidFailure, Exhausted, Target, Afterwards, OnOneRecord;
      hide Bumped, ClearClaim, Failed, Rescheduled, HandedOver;
      ghost var s, c := Contents(), Call.RetryRevocation(claim, delay, code, detail, now);
      ClaimDecision(sha, s, c);
      Decided(sha, s, c);
      if delay < MinRevocationRetryDelay || delay > MaxRevocationRetryDelay || !ValidFailure(code, detail) { return Err(InvalidRequest); }
      if claim.revocationID in records { RetriedRecord(records[claim.revocationID], KeyOf(sha, claim), delay, code, sha(detail), now); }
      reply := FailClaim(claim, code, detail, r => Rescheduled(r, delay, now), now);
    }

    method RequireManual(claim: ClaimFence, code: FailureCode, detail: string, now: Time) returns (reply: Result<Revocation>)
      modifies this
      ensures Yields(sha, old(Contents()), Call.RequireManual(claim, code, detail, now), Contents(), reply)
    {
      hide Yields, Decision, Play, Next, AnsweredRecord, HoldsClaim, ValidClaimFence, ValidFailure, Target, Afterwards, OnOneRecord;
      hide Bumped, ClearClaim, Failed, Rescheduled, HandedOver;
      ghost var s, c := Contents(), Call.RequireManual(claim, code, detail, now);
      ClaimDecision(sha, s, c);
      Decided(sha, s, c);
      if !ValidFailure(code, detail) { return Err(InvalidRequest); }
      if claim.revocationID in records { GivenUpRecord(records[claim.revocationID], KeyOf(sha, claim), code, sha(detail), now); }
      reply := FailClaim(claim, code, detail, r => HandedOver(r, now), now);
    }

    method RequeueManual(id: string, actor: string, now: Time) returns (reply: Result<Revocation>)
      modifies this
      ensures Yields(sha, old(Contents()), Call.RequeueManual(id, actor, now), Contents(), reply)
    {
      hide Yields, Decision, Play, AnsweredRecord, RequeueSteps, ValidUUID, ValidSubject, Target, Afterwards, OnOneRecord;
      ghost var s, c := Contents(), Call.RequeueManual(id, actor, now);
      OperatorDecision(sha, s, c);
      Decided(sha, s, c);
      if !ValidUUID(id) || !ValidSubject(actor) { return Err(InvalidRequest); }
      if id !in records { return Err(NotFound); }
      var changed := RequeueRecord(records[id], now);
      if changed.Err? { return Err(changed.error); }
      records := records[id := changed.value];
      return Ok(changed.value.rev);
    }

    method SubmitExternalConfirmation(id: string, subject: string, evidence: string, admin: bool, now: Time)
      returns (reply: Result<ConfirmationResult>)
      modifies this
      ensures Contents() == After(sha, old(Contents()), Call.SubmitExternalConfirmation(id, subject, evidence, admin, now))
      ensures reply == ConfirmReply(sha, old(Contents()), Call.SubmitExternalConfirmation(id, subject, evidence, admin, now))
    {
      hide After, Yields, Decision, Play, AnsweredRecord, RevocationReply, ConfirmSteps;
      hide ValidUUID, ValidSubject, ValidSHA256, Target, Afterwards, OnOneRecord;
      ghost var s, c := Contents(), Call.SubmitExternalConfirmation(id, subject, evidence, admin, now);
      OperatorDecision(sha, s, c);
      Decided(sha, s, c);
      YieldsStore(sha, s, c);
      if !ValidUUID(id) || !ValidSubject(subject) || !ValidSHA256(evidence) { return Err(InvalidRequest); }
      if id !in records { return Err(NotFound); }
      var changed := ConfirmRecord(records[id], subject, evidence, admin, now);
      if changed.Err? { return Err(changed.error); }
      records := records[id := changed.value];
      return Ok(ConfirmationResult(changed.value.rev, changed.value.confirmations));
    }

    /** Collects the eligible records, sorts them and cuts the list at the limit. */
    method Choose(c: Call) returns (chosen: seq<SortKey>)
      requires Sweep(c) && ValidSweep(c)
      ensures chosen == Chosen(Contents(), c)
      ensures Named(Contents(), chosen) && DistinctIDs(chosen)
    {
      hide Batch, Eligible, OrderOf;
      chosen := SelectBatch(EligibleKeys(Store(records, actionEpochs), c), c.limit);
      ChosenIsDistinct(Contents(), c);
    }

    method RecoverPrepared(limit: int, now: Time) returns (reply: Result<seq<Revocation>>)
      modifies this
      ensures Contents() == After(sha, old(Contents()), Call.RecoverPrepared(limit, now))
      ensures reply == SweepReply(sha, old(Contents()), Call.RecoverPrepared(limit, now))
    {
      reply := Recover(Call.RecoverPrepared(limit, now));
    }

    method RecoverExhausted(limit: int, now: Time) returns (reply: Result<seq<Revocation>>)
      modifies this
      ensures Contents() == After(sha, old(Contents()), Call.RecoverExhausted(limit, now))
      ensures reply == SweepReply(sha, old(Contents()), Call.RecoverExhausted(limit, now))
    {
      reply := Recover(Call.RecoverExhausted(limit, now));
    }

    /** The two recovery sweeps differ only in whom they choose, in what order, and in the change they make. */
    method Recover(c: Call) returns (reply: Result<seq<Revocation>>)
      requires c.RecoverPrepared? || c.RecoverExhausted?
      modifies this
      ensures Contents() == After(sha, old(Contents()), c)
      ensures reply == SweepReply(sha, old(Contents()), c)
    {
      hide After, SweepReply, Chosen, Swept, SweptRecord, Named, DistinctIDs, RecoveredFrom, Supplied;
      ghost var s := Contents();
      if c.limit < 1 || c.limit > MaxRevocationClaimBatch {
        RefusedSweepIsStill(sha, s, c);
        RefusedSweepReply(sha, s, c);
        return Err(InvalidRequest);
      }
      var chosen := Choose(c);
      SuppliedAlways(c, |chosen|);
      var recovered := RecoverChosen(c, chosen);
      SweptIsAfter(sha, s, c);
      RecoveredAll(sha, s, c, chosen);
      return Ok(recovered);
    }

    method RecoverChosen(c: Call, chosen: seq<SortKey>) returns (recovered: seq<Revocation>)
      requires Recovery(c) && Sweep(c) && Named(Contents(), chosen) && DistinctIDs(chosen) && Supplied(c, |chosen|)
      modifies this`records
      ensures records == Swept(sha, old(Contents()), c, chosen, |chosen|)
      ensures recovered == RecoveredFrom(sha, old(Contents()), c, chosen, |chosen|)
    {
      hide Swept, Next, Named, DistinctIDs, RecoveredFrom, Supplied, Sweep;
      ghost var s := Contents();
      recovered := [];
      SweptStart(sha, s, c, chosen);
      RecoveredStart(sha, s, c, chosen);
      var i := 0;
      while i < |chosen|
        invariant 0 <= i <= |chosen| && Supplied(c, i)
        invariant records == Swept(sha, s, c, chosen, i)
        invariant recovered == RecoveredFrom(sha, s, c, chosen, i)
      {
        RecoveryTurn(sha, s, c, chosen, i);
        var r := RecoverRecord(sha, records[chosen[i].id], c);
        records := records[chosen[i].id := r];
        recovered := recovered + [r.rev];
        i := i + 1;
      }
    }

    method ClaimRevocations(workerID: string, limit: int, lease: Duration, tokens: nat -> Option<string>,
                            poison: string -> bool, now: Time) returns (reply: Result<seq<ClaimedRevocation>>)
      modifies this
      ensures Contents() == After(sha, old(Contents()), Call.ClaimRevocations(workerID, limit, lease, tokens, poison, now))
      ensures reply == ClaimReply(sha, old(Contents()), Call.ClaimRevocations(workerID, limit, lease, tokens, poison, now))
    {
      hide After, ClaimReply, Chosen, Swept, SweptRecord, Named, DistinctIDs, ClaimsFrom, Supplied, ClaimRefusal, SweepCommits;
      hide ValidIdentifier, ClaimsSupplied;
      var c := Call.ClaimRevocations(workerID, limit, lease, tokens, poison, now);
      ghost var s := Contents();
      ClaimReplies(sha, s, c);
      if !ValidIdentifier(workerID, 256) || limit < 1 || limit > MaxRevocationClaimBatch || !ValidClaimDuration(lease) {
        RefusedSweepIsStill(sha, s, c);
        return Err(InvalidRequest);
      }
      var chosen := Choose(c);
      var prepared := PrepareClaims(c, chosen);
      if prepared.Err? {
        RefusedSweepIsStill(sha, s, c);
        return Err(prepared.error);
      }
      var claims := ClaimChosen(c, chosen, prepared.value);
      SweptIsAfter(sha, s, c);
      return Ok(claims);
    }

    /** First phase: nothing is changed until every candidate has a token and room for another epoch. */
    method PrepareClaims(c: Call, chosen: seq<SortKey>) returns (prepared: Result<seq<string>>)
      requires c.ClaimRevocations? && Named(Contents(), chosen)
      ensures var refusal := ClaimRefusal(Contents(), c, chosen, 0);
              if refusal.Some? then prepared == Err(refusal.value)
              else
                && prepared.Ok? && |prepared.value| == |chosen|
                && forall i | 0 <= i < |chosen| :: c.tokens(i) == Some(prepared.value[i])
    {
      hide ValidOpaqueText;
      var tokens: seq<string> := [];
      var i := 0;
      while i < |chosen|
        invariant 0 <= i <= |chosen| && |tokens| == i
        invariant forall j | 0 <= j < i :: c.tokens(j) == Some(tokens[j])
        invariant ClaimRefusal(Contents(), c, chosen, 0) == ClaimRefusal(Contents(), c, chosen, i)
      {
        assert chosen[i] in chosen;
        if records[chosen[i].id].rev.claimEpoch == MaxInt64 { return Err(InvalidTransition); }
        var token := c.tokens(i);
        if token.None? || !ValidOpaqueText(token.value, 4096) { return Err(InvalidRequest); }
        tokens := tokens + [token.value];
        i := i + 1;
      }
      return Ok(tokens);
    }

    /** Second phase: every candidate is claimed; one whose reference does not open goes to a human at once. */
    method ClaimChosen(c: Call, chosen: seq<SortKey>, tokens: seq<string>) returns (claims: seq<ClaimedRevocation>)
      requires c.ClaimRevocations? && Sweep(c) && Named(Contents(), chosen) && DistinctIDs(chosen)
      requires |tokens| == |chosen| && forall i | 0 <= i < |chosen| :: c.tokens(i) == Some(tokens[i])
      modifies this`records
      ensures Supplied(c, |chosen|) && ClaimsSupplied(c, |chosen|)
      ensures records == Swept(sha, old(Contents()), c, chosen, |chosen|)
      ensures claims == ClaimsFrom(sha, old(Contents()), c, chosen, |chosen|)
    {
      TokensSupply(c, tokens);
      hide Swept, SweptRecord, Named, DistinctIDs, ClaimsFrom, Supplied, ClaimsSupplied, Sweep, ClaimedRecord, IssuedClaim;
      ghost var s := Contents();
      claims := [];
      var i := 0;
      while i < |chosen|
        invariant 0 <= i <= |chosen| && Supplied(c, i) && ClaimsSupplied(c, i)
        invariant records == Swept(sha, s, c, chosen, i)
        invariant claims == ClaimsFrom(sha, s, c, chosen, i)
      {
        ClaimTurn(sha, s, c, chosen, |chosen|, i);
        var id := chosen[i].id;
        var r, issued := ClaimRecordNow(sha, records[id], id, c, tokens[i]);
        records := records[id := r];
        claims := claims + issued;
        i := i + 1;
      }
    }

    /** Any call of the repository, as `After` describes it. */
    method Perform(c: Call)
      modifies this
      ensures Contents() == After(sha, old(Contents()), c)
    {
      hide After, RevocationReply, PrepareReply, AuthorizeReply, ConfirmReply, SweepReply, ClaimReply, OnOneRecord;
      match c {
        case Prepare(request, now, first, finalNow, second, permitToken) =>
          var _ := Prepare(request, now, first, finalNow, second, permitToken);
        case AuthorizeChildCreate(permit, fence, gate, now) => var _ := AuthorizeChildCreate(permit, fence, gate, now);
        case RecordAnchor(id, fence, accessorPresent, gate, protector, now, finalNow) =>
          var _ := RecordAnchor(id, fence, accessorPresent, gate, protector, now, finalNow);
        case Activate(id, fence, gate, now, finalNow) => var _ := Activate(id, fence, gate, now, finalNow);
        case RecordNoCredential(id, fence, metadata, now) => var _ := RecordNoCredential(id, fence, metadata, now);
        case RecoverPrepared(limit, now) => var _ := RecoverPrepared(limit, now);
        case RecoverManagedOne(id, gate, now) => var _ := RecoverOne(id, gate, now);
        case RecoverExhausted(limit, now) => var _ := RecoverExhausted(limit, now);
        case RequestRevocation(id, fence, metadata, now) => var _ := RequestRevocation(id, fence, metadata, now);
        case ClaimRevocations(workerID, limit, lease, tokens, poison, now) =>
          var _ := ClaimRevocations(workerID, limit, lease, tokens, poison, now);
        case HeartbeatClaim(claim, extension, now) => var _ := Heartbeat(claim, extension, now);
        case CompleteRevocation(claim, now) => var _ := CompleteRevocation(claim, now);
        case RetryRevocation(claim, delay, code, detail, now) => var _ := RetryRevocation(claim, delay, code, detail, now);
        case RequireManual(claim, code, detail, now) => var _ := RequireManual(claim, code, detail, now);
        case RequeueManual(id, actor, now) => var _ := RequeueManual(id, actor, now);
        case SubmitExternalConfirmation(id, subject, evidence, admin, now) =>
          var _ := SubmitExternalConfirmation(id, subject, evidence, admin, now);
      }
    }

    /** Any sequence of calls leaves the store that `Run` describes. */
    method PerformAll(cs: seq<Call>)
      modifies this
      ensures Contents() == Run(sha, old(Contents()), cs)
      decreases |cs|
    {
      hide After;
      if |cs| > 0 {
        Perform(cs[0]);
        PerformAll(cs[1..]);
      }
    }

    /** Candidates are listed under one lock and then taken one at a time, each under its own. */
    method RecoverManaged(limit: int, x: Surroundings)
      returns (recovered: seq<Revocation>, error: Option<Error>, ghost turns: nat)
      modifies this
      ensures !(1 <= limit <= MaxRevocationClaimBatch) ==>
                error == Some(InvalidRequest) && recovered == [] && Contents() == old(Contents())
      ensures 1 <= limit <= MaxRevocationClaimBatch ==>
                Recovered(sha, old(Contents()), ManagedInOrder(old(records)), limit, x, turns, recovered, error, Contents())
    {
      hide Run, Interleaved, ManagedKeys, Batch, Transitioned, GateError, NoErrors;
      if limit < 1 || limit > MaxRevocationClaimBatch { return [], Some(InvalidRequest), 0; }
      var candidates := SelectBatch(ManagedKeys(records), |ManagedKeys(records)|);
      recovered, error, turns := RecoverEach(candidates, limit, x);
    }

    /** One candidate after the other, each under its own lock. */
    method RecoverEach(candidates: seq<SortKey>, limit: int, x: Surroundings)
      returns (recovered: seq<Revocation>, error: Option<Error>, ghost turns: nat)
      requires limit >= 1
      modifies this
      ensures Recovered(sha, old(Contents()), candidates, limit, x, turns, recovered, error, Contents())
    {
      hide Recovering, Recovered, TurnTaken;
      recovered, error, turns := [], None, 0;
      ghost var s := Contents();
      RecoveringStarts(sha, s, candidates, x);
      var i := 0;
      while i < |candidates| && |recovered| < limit
        invariant turns == i <= |candidates| && |recovered| <= limit && Recovering(sha, s, candidates, x, i, recovered, Contents())
      {
        ghost var now := Contents();
        var transitioned := RecoverTurn(candidates, x, i, s, recovered);
        TurnLeadsOn(sha, s, candidates, x, i, recovered, now, limit, transitioned, Contents());
        i, turns := i + 1, turns + 1;
        if transitioned.Err? { return recovered, Some(transitioned.error), turns; }
        recovered := recovered + if transitioned.value.Some? then [transitioned.value.value] else [];
      }
      RecoveringEnds(sha, s, candidates, x, i, recovered, Contents(), limit);
    }

    /** Others come in, then one candidate is recovered. */
    method RecoverTurn(candidates: seq<SortKey>, x: Surroundings, i: nat, ghost s: Store, ghost recovered: seq<Revocation>)
      returns (transitioned: Result<Option<Revocation>>)
      requires i < |candidates| && Recovering(sha, s, candidates, x, i, recovered, Contents())
      modifies this
      ensures TurnTaken(sha, s, candidates, x, i, transitioned, Contents())
    {
      RecoveringWithin(sha, s, candidates, x, i, recovered, Contents());
      hide Run, After, Interleaved, Transitioned, TransitionedBy, GateError, Recovering;
      OneMoreTurn(sha, s, candidates, x, i);
      PerformAll(x.others(i));
      transitioned := RecoverOne(candidates[i].id, x.gates(i), x.clock(i));
    }

    method RecoverOne(id: string, gate: Gate, now: Time) returns (transitioned: Result<Option<Revocation>>)
      modifies this
      ensures Contents() == After(sha, old(Contents()), RecoverManagedOne(id, gate, now))
      ensures GateError(gate).Some? ==> transitioned == Err(GateError(gate).value)
      ensures GateError(gate).None? ==>
                && transitioned.Ok?
                && TransitionedBy(sha, old(Contents()), RecoverManagedOne(id, gate, now))
                   == if transitioned.value.Some? then [transitioned.value.value] else []
    {
      hide After, Next, RecoverManagedSteps, TransitionedBy;
      ghost var s, c := Contents(), RecoverManagedOne(id, gate, now);
      RecoveredStore(sha, s, id, gate, now);
      if gate.Blocked? { return Err(gate.error); }
      var inspection := gate.inspection;
      var outcome: Option<Revocation> := None;
      if id in records {
        var changed := RecoverManagedRecord(records[id], inspection, now);
        if changed.Some? {
          records := records[id := changed.value];
          outcome := Some(changed.value.rev);
        }
      }
      TransitionedExactly(sha, s, c, Contents(), outcome);
      return Answer(gate.afterwards, outcome);
    }
  }

  lemma TokensSupply(c: Call, tokens: seq<string>)
    requires c.ClaimRevocations? && forall i | 0 <= i < |tokens| :: c.tokens(i) == Some(tokens[i])
    ensures Supplied(c, |tokens|) && ClaimsSupplied(c, |tokens|)
  {
  }

  lemma ClaimReplies(sha: Hash, s: Store, c: Call)
    requires c.ClaimRevocations?
    ensures Sweep(c) && (SweepCommits(s, c) <==> Named(s, Chosen(s, c)) && ClaimRefusal(s, c, Chosen(s, c), 0).None?)
    ensures !ValidSweep(c) ==> ClaimReply(sha, s, c) == Err(InvalidRequest)
    ensures ValidSweep(c) && ClaimRefusal(s, c, Chosen(s, c), 0).Some? ==>
              ClaimReply(sha, s, c) == Err(ClaimRefusal(s, c, Chosen(s, c), 0).value)
    ensures ValidSweep(c) && SweepCommits(s, c) ==>
              ClaimsSupplied(c, |Chosen(s, c)|)
              && ClaimReply(sha, s, c) == Ok(ClaimsFrom(sha, s, c, Chosen(s, c), |Chosen(s, c)|))
  {
    hide Chosen, ClaimRefusal, ClaimsFrom, ValidIdentifier, ValidOpaqueText;
    if SweepCommits(s, c) { CommitHasAllTokens(s, c, Chosen(s, c)); }
  }

  lemma ClaimTurn(sha: Hash, s: Store, c: Call, chosen: seq<SortKey>, n: nat, i: nat)
    requires c.ClaimRevocations? && Sweep(c) && Named(s, chosen) && DistinctIDs(chosen) && i < n == |chosen|
    requires Supplied(c, n) && ClaimsSupplied(c, n)
    ensures Supplied(c, i) && ClaimsSupplied(c, i) && Supplied(c, i + 1) && ClaimsSupplied(c, i + 1)
    ensures chosen[i].id in s.records && c.tokens(i).Some?
    ensures Swept(sha, s, c, chosen, i)[chosen[i].id] == s.records[chosen[i].id]
    ensures var id, r := chosen[i].id, s.records[chosen[i].id];
            && Swept(sha, s, c, chosen, i + 1)
               == Swept(sha, s, c, chosen, i)[id := ClaimedRecord(sha, r, c, c.tokens(i).value, c.poison(id))]
            && ClaimsFrom(sha, s, c, chosen, i + 1)
               == ClaimsFrom(sha, s, c, chosen, i) + IssuedClaim(sha, r, id, c, c.tokens(i).value)
  {
    ClaimsSuppliedTo(c, n, i);
    hide Swept, SweptRecord, Named, DistinctIDs, ClaimsFrom, Supplied, ClaimsSupplied, Sweep, ClaimedRecord, IssuedClaim;
    SweptStill(sha, s, c, chosen, i);
    SweptByClaim(sha, s, c, chosen, i);
    SweptNext(sha, s, c, chosen, i, SweptRecord(sha, s, c, chosen, i));
  }

  lemma ClaimsSuppliedTo(c: Call, n: nat, i: nat)
    requires c.ClaimRevocations? && ClaimsSupplied(c, n) && i < n
    ensures ClaimsSupplied(c, i) && ClaimsSupplied(c, i + 1)
  {
  }

  lemma RefusedSweepReply(sha: Hash, s: Store, c: Call)
    requires Sweep(c) && !c.ClaimRevocations? && !ValidSweep(c)
    ensures SweepReply(sha, s, c) == Err(InvalidRequest)
  {
    hide ValidSweep;
  }

  lemma RecoveredStart(sha: Hash, s: Store, c: Call, chosen: seq<SortKey>)
    requires Sweep(c) && !c.ClaimRevocations? && Named(s, chosen)
    ensures RecoveredFrom(sha, s, c, chosen, 0) == []
  {
  }
}
