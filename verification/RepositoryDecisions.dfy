/**
 The decision on a one-record call spelled out branch by branch, and the store and reply that follow
 from the decision alone.
 */
module RepositoryDecisions {
  import opened Options
  import opened Text
  import opened Revocations
  import opened Lifecycle
  import opened LifecycleTraces
  import opened RepositoryModel

  // ---------------------------------------------------------------- what a one-record call leaves behind

  lemma MovesOfOne(sha: Hash, s: Store, c: Call, id: string)
    requires OnOneRecord(c) && id in s.records
    ensures Moves(sha, s, c, id) == if id == Target(c) && Decision(sha, s, c).Ok? then Decision(sha, s, c).value else []
  {
    hide Decision, Target, SweepMoves;
  }

  lemma OneIsNotPrepare(c: Call)
    requires OnOneRecord(c)
    ensures !c.Prepare? && !Sweep(c)
  {
  }

  lemma MovedPointwise(sha: Hash, s: Store, c: Call, records: map<string, Record>)
    requires records.Keys == s.records.Keys
    requires forall id | id in s.records :: records[id] == Play(s.records[id], Moves(sha, s, c, id))
    ensures Moved(sha, s, c) == records
  {
    hide Moves, Play;
  }

  lemma AfterPointwise(sha: Hash, s: Store, c: Call, records: map<string, Record>)
    requires !c.Prepare? && records.Keys == s.records.Keys
    requires forall id | id in s.records :: records[id] == Play(s.records[id], Moves(sha, s, c, id))
    ensures After(sha, s, c) == Store(records, s.epochs)
  {
    hide Moves, Play, Moved, PrepareOutcomeOf;
    MovedPointwise(sha, s, c, records);
  }

  lemma AfterRefusal(sha: Hash, s: Store, c: Call)
    requires OnOneRecord(c) && Decision(sha, s, c).Err?
    ensures After(sha, s, c) == s
  {
    hide *;
    OneIsNotPrepare(c);
    forall id | id in s.records ensures s.records[id] == Play(s.records[id], Moves(sha, s, c, id)) {
      MovesOfOne(sha, s, c, id);
      NothingHappens(s.records[id]);
    }
    AfterPointwise(sha, s, c, s.records);
  }

  lemma AfterCommit(sha: Hash, s: Store, c: Call, r: Record)
    requires OnOneRecord(c) && Decision(sha, s, c).Ok? && Target(c) in s.records
    requires r == Play(s.records[Target(c)], Decision(sha, s, c).value)
    ensures After(sha, s, c) == Store(s.records[Target(c) := r], s.epochs)
  {
    hide *;
    OneIsNotPrepare(c);
    var records := s.records[Target(c) := r];
    forall id | id in s.records ensures records[id] == Play(s.records[id], Moves(sha, s, c, id)) {
      MovesOfOne(sha, s, c, id);
      NothingHappens(s.records[id]);
    }
    AfterPointwise(sha, s, c, records);
  }

  /** The call takes store s to store a and returns the reply. */
  ghost predicate Yields(sha: Hash, s: Store, c: Call, a: Store, reply: Result<Revocation>)
    requires OnOneRecord(c)
  {
    a == After(sha, s, c) && reply == RevocationReply(sha, s, c)
  }

  /** What the caller sees of a committed call: the value, or the error the action source added. */
  function Answer<T>(afterwards: Option<Error>, value: T): Result<T> {
    if afterwards.Some? then Err(afterwards.value) else Ok(value)
  }

  lemma Refuses(sha: Hash, s: Store, c: Call, error: Error)
    requires OnOneRecord(c) && Decision(sha, s, c) == Err(error)
    ensures Yields(sha, s, c, s, Err(error)) && AnsweredRecord(sha, s, c) == Err(error)
  {
    hide After, Decision, Play, Afterwards;
    AfterRefusal(sha, s, c);
  }

  lemma Commits(sha: Hash, s: Store, c: Call, ls: seq<Label>, r: Record)
    requires OnOneRecord(c) && Decision(sha, s, c) == Ok(ls) && Target(c) in s.records
    requires r == Play(s.records[Target(c)], ls)
    ensures Yields(sha, s, c, Store(s.records[Target(c) := r], s.epochs), Answer(Afterwards(c), r.rev))
    ensures AnsweredRecord(sha, s, c) == Answer(Afterwards(c), r)
  {
    hide After, Decision, Play, Afterwards, Target;
    AfterCommit(sha, s, c, r);
  }

  lemma DecidedOnFound(sha: Hash, s: Store, c: Call)
    requires OnOneRecord(c) && Decision(sha, s, c).Ok?
    ensures Target(c) in s.records
  {
    hide Refusal, Steps, Target;
  }

  /** The decision alone fixes the store left behind and the reply. */
  lemma Decided(sha: Hash, s: Store, c: Call)
    requires OnOneRecord(c)
    ensures var d := Decision(sha, s, c);
            if d.Err? then Yields(sha, s, c, s, Err(d.error)) && AnsweredRecord(sha, s, c) == Err(d.error)
            else
              && Target(c) in s.records
              && var r := Play(s.records[Target(c)], d.value);
              && Yields(sha, s, c, Store(s.records[Target(c) := r], s.epochs), Answer(Afterwards(c), r.rev))
              && AnsweredRecord(sha, s, c) == Answer(Afterwards(c), r)
  {
    hide *;
    match Decision(sha, s, c)
    case Err(error) => Refuses(sha, s, c, error);
    case Ok(ls) =>
      DecidedOnFound(sha, s, c);
      Commits(sha, s, c, ls, Play(s.records[Target(c)], ls));
  }

  /** A successful reply shows the record as the call left it. */
  lemma ReplyShowsRecord(sha: Hash, s: Store, c: Call)
    requires OnOneRecord(c) && RevocationReply(sha, s, c).Ok?
    ensures Target(c) in After(sha, s, c).records
    ensures After(sha, s, c).records[Target(c)].rev == RevocationReply(sha, s, c).value
  {
    hide After, Decision, Play, Afterwards, Target;
    Decided(sha, s, c);
  }

  // ---------------------------------------------------------------- what each call decides

  /** Calls that the action source admits to the record, or does not. */
  lemma GatedDecision(sha: Hash, s: Store, c: Call)
    requires c.AuthorizeChildCreate? || c.RecordAnchor? || c.Activate? || c.RecoverManagedOne?
    ensures OnOneRecord(c) && Target(c) == (if c.AuthorizeChildCreate? then c.permit.revocationID else c.id)
    ensures Afterwards(c) == if c.gate.Admitted? then c.gate.afterwards else None
    ensures
      var valid := c.RecoverManagedOne? || (ValidUUID(Target(c)) && ValidActionFence(c.fence)
                   && (c.AuthorizeChildCreate? ==> ValidOpaqueText(c.permit.token, 4096)) && (c.RecordAnchor? ==> c.accessorPresent));
      if !valid then Decision(sha, s, c) == Err(InvalidRequest)
      else if c.gate.Blocked? then Decision(sha, s, c) == Err(c.gate.error)
      else if Target(c) !in s.records then Decision(sha, s, c) == Err(NotFound)
      else
        var r, i := s.records[Target(c)], c.gate.inspection;
        && (c.AuthorizeChildCreate? ==> Decision(sha, s, c) == AuthorizeSteps(sha, r, c.permit.token, c.fence, i, c.now))
        && (c.RecordAnchor? ==> Decision(sha, s, c) == AnchorSteps(sha, r, c.fence, i, c.protector, c.now, c.finalNow))
        && (c.Activate? ==> Decision(sha, s, c) == ActivateSteps(sha, r, c.fence, i, c.now, c.finalNow))
        && (c.RecoverManagedOne? ==> Decision(sha, s, c) == RecoverManagedSteps(r, i, c.now))
  {
    hide AuthorizeSteps, AnchorSteps, ActivateSteps, RecoverManagedSteps, ValidUUID, ValidOpaqueText, ValidActionFence;
  }

  /** The checks of `actionTransition`, up to the transition itself. */
  function ActionLookup(sha: Hash, records: map<string, Record>, id: string, fence: ActionFence, metadata: Option<Metadata>, now: Time)
    : (found: Result<Record>)
    ensures found.Ok? ==> id in records && found.value == records[id]
  {
    if !ValidUUID(id) || !ValidActionFence(fence) then Err(InvalidRequest)
    else if !Resolves(fence, metadata, now) then Err(StaleActionFence)
    else if id !in records then Err(NotFound)
    else if !FenceMatches(sha, records[id], fence) || records[id].rev.frozen.scope != metadata.value.scope then Err(StaleActionFence)
    else Ok(records[id])
  }

  /** Calls that go through `actionTransition`. */
  lemma LookupDecision(sha: Hash, s: Store, c: Call)
    requires c.RecordNoCredential? || (c.RequestRevocation? && c.fence != NoFence)
    ensures OnOneRecord(c) && Target(c) == c.id && Afterwards(c) == None
    ensures var found := ActionLookup(sha, s.records, c.id, c.fence, c.metadata, c.now);
            if found.Err? then Decision(sha, s, c) == Err(found.error)
            else Decision(sha, s, c) == if c.RecordNoCredential? then NoCredentialWhen(found.value, c.now) else RequestSteps(found.value, c.now)
  {
    LookupRefused(c);
    if c.id in s.records { LookupSteps(sha, s.records[c.id], c); }
    hide NoCredentialWhen, RequestSteps, ValidUUID, ValidActionFence, Resolves, FenceMatches, Steps, Refusal;
  }

  lemma LookupRefused(c: Call)
    requires c.RecordNoCredential? || (c.RequestRevocation? && c.fence != NoFence)
    ensures OnOneRecord(c) && Target(c) == c.id && Afterwards(c) == None
    ensures Refusal(c) == if !ValidUUID(c.id) || !ValidActionFence(c.fence) then Some(InvalidRequest)
                          else if !Resolves(c.fence, c.metadata, c.now) then Some(StaleActionFence) else None
  {
    hide ValidUUID, ValidActionFence, Resolves;
  }

  lemma LookupSteps(sha: Hash, r: Record, c: Call)
    requires c.RecordNoCredential? || (c.RequestRevocation? && c.fence != NoFence)
    ensures OnOneRecord(c)
    ensures Steps(sha, r, c) ==
              if c.metadata.None? || !FenceMatches(sha, r, c.fence) || r.rev.frozen.scope != c.metadata.value.scope then Err(StaleActionFence)
              else if c.RecordNoCredential? then NoCredentialWhen(r, c.now) else RequestSteps(r, c.now)
  {
    hide NoCredentialWhen, RequestSteps, FenceMatches, WorkerSteps, ActionSteps, OperatorSteps;
    if c.RecordNoCredential? { NoCredentialLooksUp(sha, r, c); } else { RequestLooksUp(sha, r, c); }
  }

  lemma NoCredentialLooksUp(sha: Hash, r: Record, c: Call)
    requires c.RecordNoCredential?
    ensures ActionSteps(sha, r, c) ==
              if c.metadata.None? || !FenceMatches(sha, r, c.fence) || r.rev.frozen.scope != c.metadata.value.scope
              then Err(StaleActionFence) else NoCredentialWhen(r, c.now)
  {
    hide NoCredentialWhen, FenceMatches;
  }

  lemma RequestLooksUp(sha: Hash, r: Record, c: Call)
    requires c.RequestRevocation? && c.fence != NoFence
    ensures OperatorSteps(sha, r, c) ==
              if c.metadata.None? || !FenceMatches(sha, r, c.fence) || r.rev.frozen.scope != c.metadata.value.scope
              then Err(StaleActionFence) else RequestSteps(r, c.now)
  {
    hide RequestSteps, FenceMatches;
  }

  lemma ClaimCallTraits(c: Call)
    requires ClaimCall(c)
    ensures OnOneRecord(c) && Target(c) == c.claim.revocationID && !ActionCall(c) && Afterwards(c) == None
  {
  }

  lemma ClaimCallDecides(sha: Hash, s: Store, c: Call)
    requires ClaimCall(c)
    ensures OnOneRecord(c)
    ensures Decision(sha, s, c) ==
              if Refusal(c).Some? then Err(Refusal(c).value)
              else if c.claim.revocationID !in s.records then Err(NotFound)
              else WorkerSteps(sha, s.records[c.claim.revocationID], c)
  {
    ClaimCallTraits(c);
    hide WorkerSteps, Refusal, ActionSteps, OperatorSteps, Target, OnOneRecord, ClaimCall, ActionCall;
  }

  predicate ValidClaimCall(c: Call)
    requires ClaimCall(c)
  {
    && ValidClaimFence(c.claim) && (c.HeartbeatClaim? ==> ValidClaimDuration(c.extension))
    && (c.RetryRevocation? ==> MinRevocationRetryDelay <= c.delay <= MaxRevocationRetryDelay)
    && (c.RetryRevocation? || c.RequireManual? ==> ValidFailure(c.code, c.detail))
  }

  /** Calls that present a claim fence. */
  lemma ClaimDecision(sha: Hash, s: Store, c: Call)
    requires ClaimCall(c)
    ensures OnOneRecord(c) && Target(c) == c.claim.revocationID && Afterwards(c) == None
    ensures
      if !ValidClaimCall(c) then Decision(sha, s, c) == Err(InvalidRequest)
      else if c.claim.revocationID !in s.records then Decision(sha, s, c) == Err(NotFound)
      else
        var r, key := s.records[c.claim.revocationID], KeyOf(sha, c.claim);
        && (c.HeartbeatClaim? ==> Decision(sha, s, c) == HeartbeatSteps(r, key, c.extension, c.now))
        && (c.CompleteRevocation? ==> Decision(sha, s, c) == CompleteSteps(r, key, c.now))
        && (c.RetryRevocation? ==> Decision(sha, s, c) == RetrySteps(r, key, c.delay, c.code, sha(c.detail), c.now))
        && (c.RequireManual? ==> Decision(sha, s, c) == ManualSteps(r, key, c.code, sha(c.detail), c.now))
  {
    ClaimCallTraits(c);
    ClaimCallDecides(sha, s, c);
    hide HeartbeatSteps, CompleteSteps, RetrySteps, ManualSteps, ValidClaimCall, Decision, Refusal, Target, OnOneRecord, Afterwards, KeyOf;
  }

  /** Calls of the system itself and of operators. */
  lemma OperatorDecision(sha: Hash, s: Store, c: Call)
    requires (c.RequestRevocation? && c.fence == NoFence) || c.RequeueManual? || c.SubmitExternalConfirmation?
    ensures OnOneRecord(c) && Target(c) == c.id && Afterwards(c) == None
    ensures
      var valid := ValidUUID(c.id) && (c.RequeueManual? ==> ValidSubject(c.actor))
                   && (c.SubmitExternalConfirmation? ==> ValidSubject(c.subject) && ValidSHA256(c.evidence));
      if !valid then Decision(sha, s, c) == Err(InvalidRequest)
      else if c.id !in s.records then Decision(sha, s, c) == Err(NotFound)
      else
        var r := s.records[c.id];
        && (c.RequestRevocation? ==> Decision(sha, s, c) == RequestSteps(r, c.now))
        && (c.RequeueManual? ==> Decision(sha, s, c) == RequeueSteps(r, c.now))
        && (c.SubmitExternalConfirmation? ==> Decision(sha, s, c) == ConfirmSteps(r, c.subject, c.evidence, c.admin, c.now))
  {
    hide RequestSteps, RequeueSteps, ConfirmSteps, ValidUUID, ValidSubject, ValidSHA256, ValidActionFence, Resolves, FenceMatches;
  }
}
