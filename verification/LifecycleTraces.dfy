/**
 Whole lives of a record: any sequence of enabled steps. These are the safety results that hold over
 every run, before the repository decides which steps to take.
 */
module LifecycleTraces {
  import opened Revocations
  import opened Lifecycle

  function Play(r: Record, ls: seq<Label>): Record
    decreases |ls|
  {
    if |ls| == 0 then r else Play(Next(r, ls[0]), ls[1..])
  }

  predicate Legal(r: Record, ls: seq<Label>)
    decreases |ls|
  {
    |ls| > 0 ==> Enabled(r, ls[0]) && ls[0].now != Zero && Legal(Next(r, ls[0]), ls[1..])
  }

  /** Clock readings never run behind the record's last update. */
  predicate Punctual(r: Record, ls: seq<Label>)
    decreases |ls|
  {
    |ls| > 0 ==> ls[0].now >= r.rev.updatedAt && Punctual(Next(r, ls[0]), ls[1..])
  }

  lemma PlaySteps(r: Record, a: Label, b: Label)
    ensures Play(r, []) == r && Play(r, [a]) == Next(r, a) && Play(r, [a, b]) == Next(Next(r, a), b)
  {
    hide Next;
    assert [a][1..] == [] && [a, b][1..] == [b] && [b][1..] == [];
    assert Play(Next(r, a), [b]) == Play(Next(Next(r, a), b), []);
  }

  function Count(p: Label -> bool, ls: seq<Label>): nat {
    if |ls| == 0 then 0 else (if p(ls[0]) then 1 else 0) + Count(p, ls[1..])
  }

  const isClaim := (l: Label) => l.Claim?
  const isFailure := (l: Label) => l.Retry? || l.GiveUp? || l.Exhaust?
  const isRequeue := (l: Label) => l.Requeue?
  const isAuthorize := (l: Label) => l.Authorize?
  const isComplete := (l: Label) => l.Complete?
  const isConfirm := (l: Label) => l.Confirm?

  /** A freshly prepared record. */
  predicate Newborn(r: Record) {
    WellFormed(r) && r.rev.status == Prepared && r.childAuthorizedAt == Zero && r.rev.version == 1
  }

  lemma NewbornShape(r: Record)
    requires Newborn(r)
    ensures WellFormed(r) && r.rev.status == Prepared && !Live(r) && r.rev.version == 1
    ensures r.childAuthorizedAt == Zero && r.protected.ciphertext == ""
  {
  }

  lemma NothingHappens(r: Record)
    ensures Play(r, []) == r && Legal(r, []) && Punctual(r, [])
  {
  }

  lemma {:induction false} TraceKeepsWellFormed(r: Record, ls: seq<Label>)
    requires WellFormed(r) && Legal(r, ls)
    ensures WellFormed(Play(r, ls))
    decreases |ls|
  {
    hide Next, Enabled, WellFormed, Chronological;
    if |ls| > 0 {
      StepKeepsWellFormed(r, ls[0]);
      TraceKeepsWellFormed(Next(r, ls[0]), ls[1..]);
    }
  }

  lemma {:induction false} TraceKeepsChronological(r: Record, ls: seq<Label>)
    requires WellFormed(r) && Chronological(r) && Legal(r, ls) && Punctual(r, ls)
    ensures Chronological(Play(r, ls)) && r.rev.updatedAt <= Play(r, ls).rev.updatedAt
    decreases |ls|
  {
    hide Next, Enabled, WellFormed, Chronological;
    if |ls| > 0 {
      StepKeepsWellFormed(r, ls[0]);
      StepKeepsChronological(r, ls[0]);
      StepBumpsVersion(r, ls[0]);
      TraceKeepsChronological(Next(r, ls[0]), ls[1..]);
    }
  }

  lemma {:induction false} PlaySplit(r: Record, a: seq<Label>, b: seq<Label>)
    ensures Play(r, a + b) == Play(Play(r, a), b)
    ensures Legal(r, a + b) <==> Legal(r, a) && Legal(Play(r, a), b)
    ensures Punctual(r, a + b) <==> Punctual(r, a) && Punctual(Play(r, a), b)
    decreases |a|
  {
    hide Next, Enabled;
    if |a| == 0 {
      assert a + b == b;
    } else {
      assert (a + b)[1..] == a[1..] + b;
      PlaySplit(Next(r, a[0]), a[1..], b);
    }
  }

  lemma {:induction false} CountSplit(p: Label -> bool, a: seq<Label>, b: seq<Label>)
    ensures Count(p, a + b) == Count(p, a) + Count(p, b)
    decreases |a|
  {
    if |a| == 0 {
      assert a + b == b;
    } else {
      assert (a + b)[1..] == a[1..] + b;
      CountSplit(p, a[1..], b);
    }
  }

  lemma StepBumpsVersion(r: Record, l: Label)
    ensures Next(r, l).rev.version == r.rev.version + 1 && Next(r, l).rev.updatedAt == l.now
    ensures Next(r, l).rev.frozen == r.rev.frozen
    ensures Next(r, l).actionTokenSHA256 == r.actionTokenSHA256
    ensures Next(r, l).permitSHA256 == r.permitSHA256
  {
  }

  /** The version counts the steps, and what Prepare froze stays as it was. */
  lemma {:induction false} VersionCountsSteps(r: Record, ls: seq<Label>)
    ensures Play(r, ls).rev.version == r.rev.version + |ls|
    ensures Play(r, ls).rev.frozen == r.rev.frozen
    ensures Play(r, ls).actionTokenSHA256 == r.actionTokenSHA256
    ensures Play(r, ls).permitSHA256 == r.permitSHA256
    decreases |ls|
  {
    hide Next;
    if |ls| > 0 {
      StepBumpsVersion(r, ls[0]);
      VersionCountsSteps(Next(r, ls[0]), ls[1..]);
    }
  }

  /** No step is ever taken on a revoked record or on one that never had a credential. */
  lemma TerminalIsAbsorbing(r: Record, ls: seq<Label>)
    requires Terminal(r.rev.status)
    ensures Legal(r, ls) <==> ls == []
  {
  }

  lemma StepAuthorizesOnce(r: Record, l: Label)
    requires Enabled(r, l) && l.now != Zero
    ensures if l.Authorize? then r.childAuthorizedAt == Zero && Next(r, l).childAuthorizedAt == l.now
            else Next(r, l).childAuthorizedAt == r.childAuthorizedAt && Next(r, l).childTTL == r.childTTL
  {
  }

  /** A record authorizes a child at most once, and keeps the instant and the TTL it authorized. */
  lemma {:induction false} OneChildPerRecord(r: Record, ls: seq<Label>)
    requires WellFormed(r) && Legal(r, ls)
    ensures Count(isAuthorize, ls) + (if r.childAuthorizedAt != Zero then 1 else 0)
            == if Play(r, ls).childAuthorizedAt != Zero then 1 else 0
    ensures r.childAuthorizedAt != Zero ==>
              Play(r, ls).childAuthorizedAt == r.childAuthorizedAt && Play(r, ls).childTTL == r.childTTL
    decreases |ls|
  {
    hide Next, Enabled, WellFormed;
    if |ls| > 0 {
      StepKeepsWellFormed(r, ls[0]);
      StepAuthorizesOnce(r, ls[0]);
      OneChildPerRecord(Next(r, ls[0]), ls[1..]);
    }
  }

  /**
   No orphaned credential: a record that ends as NO_CREDENTIAL holds no accessor, and either never
   authorized a child or was closed only after every authorized child had outlived its TTL, the
   creation reserve and the recovery grace.
   */
  lemma NoCredentialMeansNoLiveChild(r: Record, ls: seq<Label>)
    requires WellFormed(r) && Legal(r, ls)
    requires Play(r, ls).rev.status == NoCredential
    ensures var e := Play(r, ls);
            && !e.rev.accessorPresent && e.protected == NoReference
            && (e.childAuthorizedAt == Zero
                || e.childAuthorizedAt + e.childTTL + ChildCreateExpiryReserve + PreparedRecoveryGrace <= e.rev.updatedAt)
  {
    TraceKeepsWellFormed(r, ls);
  }

  // ---------------------------------------------------------------- retry budgets

  /** Claims this record may still take before somebody requeues it. */
  function ClaimBudget(r: Record): int {
    match r.rev.status
    case Prepared => MaxRevocationAttempts
    case Anchored => MaxRevocationAttempts
    case Active => MaxRevocationAttempts
    case RevocationPending => MaxRevocationAttempts - CycleClaims(r)
    case Revoking => MaxRevocationAttempts - CycleClaims(r)
    case _ => 0
  }

  /** Failures it may still record: a held claim can fail once more. */
  function FailureBudget(r: Record): int {
    ClaimBudget(r) + if r.rev.status == Revoking then 1 else 0
  }

  lemma BudgetNonNegative(r: Record)
    requires WellFormed(r)
    ensures ClaimBudget(r) >= 0 && FailureBudget(r) >= 0
  {
  }

  lemma StepSpendsBudget(r: Record, l: Label)
    requires WellFormed(r) && Enabled(r, l) && l.now != Zero
    ensures (if isClaim(l) then 1 else 0) + ClaimBudget(Next(r, l))
            <= ClaimBudget(r) + if isRequeue(l) then MaxRevocationAttempts else 0
    ensures (if isFailure(l) then 1 else 0) + FailureBudget(Next(r, l))
            <= FailureBudget(r) + if isRequeue(l) then MaxRevocationAttempts else 0
    ensures Next(r, l).rev.attempt == r.rev.attempt + if isClaim(l) then 1 else 0
    ensures Next(r, l).rev.failureCount == r.rev.failureCount + if isFailure(l) then 1 else 0
  {
    hide HeldClaim, FailureFields, ChildBudget, OneEvidence, TwoPersonCompletion, FencedCompletion;
  }

  /** With k requeues a life holds at most 12 * (k + 1) claims and as many recorded failures. */
  lemma {:induction false} RetryBudget(r: Record, ls: seq<Label>)
    requires WellFormed(r) && Legal(r, ls)
    ensures Count(isClaim, ls) <= ClaimBudget(r) + MaxRevocationAttempts * Count(isRequeue, ls)
    ensures Count(isFailure, ls) <= FailureBudget(r) + MaxRevocationAttempts * Count(isRequeue, ls)
    ensures Play(r, ls).rev.attempt == r.rev.attempt + Count(isClaim, ls)
    ensures Play(r, ls).rev.failureCount == r.rev.failureCount + Count(isFailure, ls)
    decreases |ls|
  {
    hide Next, Enabled, WellFormed, ClaimBudget, FailureBudget;
    BudgetNonNegative(r);
    if |ls| > 0 {
      StepSpendsBudget(r, ls[0]);
      StepKeepsWellFormed(r, ls[0]);
      RetryBudget(Next(r, ls[0]), ls[1..]);
    }
  }

  /** Within one cycle - no requeue since birth - twelve claims and twelve failures is the ceiling. */
  lemma OneCycleBudget(r: Record, ls: seq<Label>)
    requires Newborn(r) && Legal(r, ls) && Count(isRequeue, ls) == 0
    ensures Count(isClaim, ls) <= MaxRevocationAttempts
    ensures Count(isFailure, ls) <= MaxRevocationAttempts
    ensures Play(r, ls).rev.attempt <= MaxRevocationAttempts
    ensures Play(r, ls).rev.failureCount <= MaxRevocationAttempts
  {
    RetryBudget(r, ls);
  }

  // ---------------------------------------------------------------- claim fencing

  predicate Fenced(l: Label) {
    l.Heartbeat? || l.Complete? || l.Retry? || l.GiveUp?
  }

  lemma {:induction false} ClaimEpochsGrow(r: Record, ls: seq<Label>)
    requires WellFormed(r) && Legal(r, ls)
    ensures Play(r, ls).rev.claimEpoch == r.rev.claimEpoch + Count(isClaim, ls)
  {
    RetryBudget(r, ls);
    TraceKeepsWellFormed(r, ls);
  }

  /** A step is accepted only from the fence of the latest claim, before that claim expires. */
  lemma FencedStepIsCurrent(r: Record, ls: seq<Label>, i: nat)
    requires WellFormed(r) && Legal(r, ls) && i < |ls| && Fenced(ls[i])
    ensures ls[i].key.epoch == r.rev.claimEpoch + Count(isClaim, ls[..i])
    ensures HoldsClaim(Play(r, ls[..i]), ls[i].key, ls[i].now)
  {
    assert ls == ls[..i] + ls[i..];
    PlaySplit(r, ls[..i], ls[i..]);
    ClaimEpochsGrow(r, ls[..i]);
  }

  /** Once a later claim has been taken, an earlier fence is never accepted again. */
  lemma SupersededFenceIsDead(r: Record, ls: seq<Label>, stale: ClaimKey, j: nat)
    requires WellFormed(r) && Legal(r, ls) && stale.epoch < r.rev.claimEpoch
    requires j < |ls| && Fenced(ls[j])
    ensures ls[j].key != stale
  {
    FencedStepIsCurrent(r, ls, j);
  }

  /** Nor can it pass for the completing fence of a revoked record. */
  lemma SupersededFenceNeverCompleted(r: Record, ls: seq<Label>, stale: ClaimKey)
    requires WellFormed(r) && Legal(r, ls) && 0 < stale.epoch < r.rev.claimEpoch
    ensures Play(r, ls).completedClaimEpoch != stale.epoch
  {
    TraceKeepsWellFormed(r, ls);
    ClaimEpochsGrow(r, ls);
  }

  // ---------------------------------------------------------------- how a record is revoked

  lemma StepCountsCompletion(r: Record, l: Label)
    requires WellFormed(r) && Enabled(r, l)
    ensures |Next(r, l).confirmations| == |r.confirmations| + if l.Confirm? then 1 else 0
    ensures if l.Complete? then r.completedClaimEpoch == 0 && Next(r, l).completedClaimEpoch > 0
            else Next(r, l).completedClaimEpoch == r.completedClaimEpoch
  {
    hide StatusShape, ChildBudget, FailureFields;
    if l.Complete? {
      RevokingIsUncompleted(r);
    }
  }

  lemma RevokingIsUncompleted(r: Record)
    requires WellFormed(r) && r.rev.status == Revoking
    ensures r.completedClaimEpoch == 0 && r.rev.claimEpoch > 0
  {
  }

  lemma {:induction false} CompletionsCounted(r: Record, ls: seq<Label>)
    requires WellFormed(r) && Legal(r, ls)
    ensures Count(isConfirm, ls) + |r.confirmations| == |Play(r, ls).confirmations|
    ensures Count(isComplete, ls) + (if r.completedClaimEpoch != 0 then 1 else 0)
            == if Play(r, ls).completedClaimEpoch != 0 then 1 else 0
    decreases |ls|
  {
    hide Next, Enabled, WellFormed;
    if |ls| > 0 {
      StepKeepsWellFormed(r, ls[0]);
      StepCountsCompletion(r, ls[0]);
      CompletionsCounted(Next(r, ls[0]), ls[1..]);
    }
  }

  /**
   Every revoked record was finished by exactly one claim fence and no confirmation, or by exactly
   two confirmations - distinct subjects, one evidence hash, one platform admin - and no fence.
   */
  lemma RevokedOneWay(r: Record, ls: seq<Label>)
    requires Newborn(r) && Legal(r, ls) && Play(r, ls).rev.status == Revoked
    ensures var e := Play(r, ls);
            || (Count(isComplete, ls) == 1 && Count(isConfirm, ls) == 0 && FencedCompletion(e))
            || (Count(isComplete, ls) == 0 && Count(isConfirm, ls) == 2 && TwoPersonCompletion(e))
  {
    CompletionsCounted(r, ls);
    TraceKeepsWellFormed(r, ls);
  }

  /** One confirmation closes every exit but the second confirmation. */
  lemma ConfirmedManualOnlyRevokes(r: Record, l: Label)
    requires WellFormed(r) && r.rev.status == ManualRequired && |r.confirmations| == 1
    requires Enabled(r, l)
    ensures l.Confirm? && Next(r, l).rev.status == Revoked
    ensures Next(r, l).rev.evidenceHash == r.rev.evidenceHash
  {
    if l.Confirm? {
      assert |Next(r, l).confirmations| == 2;
    }
  }

  // ---------------------------------------------------------------- never live again

  predicate Live(r: Record) {
    r.rev.status == Anchored || r.rev.status == Active
  }

  const enlivens := (l: Label) => l.Anchor? || l.MarkActive?

  lemma StepNotLive(r: Record, l: Label)
    requires !Live(r) && Enabled(r, l) && !enlivens(l)
    ensures !Live(Next(r, l))
  {
  }

  /** Only an anchor or an activation makes a record hold a usable credential. */
  lemma {:induction false} NotLiveStaysNotLive(r: Record, ls: seq<Label>)
    requires !Live(r) && forall l | l in ls :: !enlivens(l)
    requires Legal(r, ls)
    ensures !Live(Play(r, ls))
    decreases |ls|
  {
    hide Next, Enabled, Live;
    if |ls| > 0 {
      StepNotLive(r, ls[0]);
      assert forall l | l in ls[1..] :: l in ls;
      NotLiveStaysNotLive(Next(r, ls[0]), ls[1..]);
    }
  }
}
