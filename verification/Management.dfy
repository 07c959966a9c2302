/** The projection of a record that may reach the control plane, and the check it has to pass there. */
module Management {
  import opened Text
  import opened Revocations
  import opened Lifecycle
  import opened LifecycleTraces

  datatype ManagementRecord = ManagementRecord(
    id: string, workspaceID: string, environmentID: string, actionID: string, targetKey: string,
    actionType: string, connectorID: string, status: Status, accessorPresent: bool,
    credentialExpiresAt: Time, attempt: int, failureCount: int, failureCode: FailureCode,
    failureDetailSHA256: string, availableAt: Time, evidenceHash: string, confirmationCount: int,
    platformAdminConfirmed: bool, manualRequiredAt: Time, revokedAt: Time, version: int,
    createdAt: Time, updatedAt: Time)

  function Project(r: Record): ManagementRecord {
    var rev := r.rev;
    ManagementRecord(
      rev.frozen.id, rev.frozen.scope.workspaceID, rev.frozen.scope.environmentID, rev.frozen.actionID,
      rev.frozen.scope.targetKey, rev.frozen.scope.actionType, rev.frozen.scope.connectorID, rev.status,
      rev.accessorPresent, rev.frozen.credentialExpiresAt, rev.attempt, rev.failureCount, rev.failureCode,
      rev.failureDetailSHA256, rev.availableAt, rev.evidenceHash, |r.confirmations|, HasAdmin(r.confirmations),
      rev.manualRequiredAt, rev.revokedAt, rev.version, rev.frozen.createdAt, rev.updatedAt)
  }

  predicate ValidManagementTime(value: Time) {
    value != Zero && value == CanonicalCredentialExpiry(value)
  }

  predicate ValidManagementLifecycleTime(value: Time, createdAt: Time, updatedAt: Time) {
    value == Zero || createdAt <= value <= updatedAt
  }

  predicate ValidManagementRecord(m: ManagementRecord) {
    && ValidUUID(m.id) && ValidUUID(m.workspaceID) && ValidUUID(m.environmentID)
    && ValidIdentifier(m.actionID, 256) && ValidIdentifier(m.targetKey, 512)
    && ValidIdentifier(m.actionType, 256) && ValidIdentifier(m.connectorID, 256)
    && m.version >= 1 && m.attempt >= 0 && m.failureCount >= 0
    && 0 <= m.confirmationCount <= 2
    && !(m.platformAdminConfirmed && m.confirmationCount == 0)
    && ValidManagementTime(m.credentialExpiresAt) && ValidManagementTime(m.availableAt)
    && ValidManagementTime(m.createdAt) && ValidManagementTime(m.updatedAt)
    && m.createdAt <= m.updatedAt
    && (m.manualRequiredAt == Zero || ValidManagementTime(m.manualRequiredAt))
    && (m.revokedAt == Zero || ValidManagementTime(m.revokedAt))
    && m.createdAt < m.credentialExpiresAt <= m.createdAt + MaxCredentialTTL
    && ValidManagementLifecycleTime(m.manualRequiredAt, m.createdAt, m.updatedAt)
    && ValidManagementLifecycleTime(m.revokedAt, m.createdAt, m.updatedAt)
    && !(m.manualRequiredAt != Zero && m.revokedAt != Zero && m.revokedAt < m.manualRequiredAt)
    && (if m.failureCount == 0
        then m.failureCode == NoFailure && m.failureDetailSHA256 == ""
        else ValidFailureCode(m.failureCode) && ValidSHA256(m.failureDetailSHA256))
    && m.accessorPresent == (m.status in {Anchored, Active, RevocationPending, Revoking, ManualRequired})
    && (m.status in {Prepared, NoCredential, Anchored, Active} ==> m.manualRequiredAt == Zero)
    && (m.status == ManualRequired ==> m.manualRequiredAt != Zero && m.failureCount != 0)
    && (m.status == Revoking ==> m.attempt != 0)
    && (m.status == Revoked) == (m.revokedAt != Zero)
    && (if m.evidenceHash == "" then m.confirmationCount == 0 && !m.platformAdminConfirmed
        else
          && ValidSHA256(m.evidenceHash)
          && (if m.status == ManualRequired then m.confirmationCount == 1
              else m.status == Revoked && m.confirmationCount == 2 && m.platformAdminConfirmed))
  }

  /** What Prepare checks about the fields it freezes. */
  predicate PrepareFormat(f: Frozen) {
    && ValidUUID(f.id) && ValidIdentifier(f.actionID, 256) && f.actionLeaseEpoch > 0
    && ValidIdentifier(f.scope.tenantID, 256)
    && ValidIdentifier(f.scope.targetKey, 512) && ValidIdentifier(f.scope.actionType, 256)
    && !f.scope.production
    && f.createdAt < f.credentialExpiresAt <= f.createdAt + MaxCredentialTTL
    && f.credentialExpiresAt % Microsecond == 0
  }

  /** Identifiers the control plane insists on and Prepare does not. */
  predicate ManagementFormat(f: Frozen) {
    ValidUUID(f.scope.workspaceID) && ValidUUID(f.scope.environmentID) && ValidIdentifier(f.scope.connectorID, 256)
  }

  /** Every instant the projection shows, except the one a retry delay sets, is a whole microsecond. */
  predicate WholeInstants(r: Record) {
    && r.rev.frozen.createdAt % Microsecond == 0 && r.rev.updatedAt % Microsecond == 0
    && r.rev.manualRequiredAt % Microsecond == 0 && r.rev.revokedAt % Microsecond == 0
  }

  /** The instant until which the record waits is not a whole microsecond. */
  predicate WaitsOddly(r: Record) {
    r.rev.availableAt % Microsecond != 0
  }

  /** Steps that set the instant from which a record may be claimed. */
  predicate SetsWait(l: Label) {
    l.Request? || l.Requeue? || l.Retry?
  }

  /**
   A life ends with an odd wait: the last step that set a wait was a retry with a delay that is not a whole number of
   microseconds. If none did, the wait is the one the life began with.
   */
  predicate EndsOddly(odd: bool, ls: seq<Label>) {
    if |ls| == 0 then odd
    else
      var l := ls[|ls| - 1];
      if SetsWait(l) then l.Retry? && l.delay % Microsecond != 0 else EndsOddly(odd, ls[..|ls| - 1])
  }

  lemma AdminNeedsConfirmation(r: Record)
    ensures HasAdmin(r.confirmations) ==> |r.confirmations| > 0
  {
    if HasAdmin(r.confirmations) {
      var s :| s in r.confirmations && r.confirmations[s].platformAdmin;
      assert s in r.confirmations.Keys;
    }
  }

  /**
   The control plane accepts a well-formed, chronological record exactly when its identifiers are in
   management format and its instants are whole microseconds.
   */
  lemma ManageableExactly(r: Record)
    requires WellFormed(r) && Chronological(r) && PrepareFormat(r.rev.frozen)
    ensures ValidManagementRecord(Project(r)) <==> ManagementFormat(r.rev.frozen) && WholeInstants(r) && !WaitsOddly(r)
  {
    AdminNeedsConfirmation(r);
    var m := Project(r);
    assert m.revokedAt == Zero || m.revokedAt > 0;
    if r.rev.status == Revoked && r.rev.evidenceHash == "" {
      assert Unconfirmed(r);
    }
  }

  lemma StepSetsWait(r: Record, l: Label)
    requires WholeInstants(r) && l.now % Microsecond == 0
    ensures WholeInstants(Next(r, l))
    ensures WaitsOddly(Next(r, l)) <==> EndsOddly(WaitsOddly(r), [l])
  {
    assert [l][..0] == [];
    if l.Retry? { assert Next(r, l).rev.availableAt == l.now + l.delay; }
  }

  lemma {:induction false} EndsOddlySplit(odd: bool, a: seq<Label>, b: seq<Label>)
    ensures EndsOddly(odd, a + b) <==> EndsOddly(EndsOddly(odd, a), b)
    decreases |b|
  {
    if |b| == 0 {
      assert a + b == a;
    } else {
      assert (a + b)[..|a + b| - 1] == a + b[..|b| - 1];
      EndsOddlySplit(odd, a, b[..|b| - 1]);
    }
  }

  /** Over a whole life on a microsecond clock, the wait is odd exactly if the life ends oddly. */
  lemma {:induction false} LifeSetsWait(r: Record, ls: seq<Label>)
    requires WholeInstants(r) && forall l | l in ls :: l.now % Microsecond == 0
    ensures WholeInstants(Play(r, ls))
    ensures WaitsOddly(Play(r, ls)) <==> EndsOddly(WaitsOddly(r), ls)
    decreases |ls|
  {
    hide WholeInstants, WaitsOddly, Next;
    if |ls| > 0 {
      StepSetsWait(r, ls[0]);
      LifeSetsWait(Next(r, ls[0]), ls[1..]);
      EndsOddlySplit(WaitsOddly(r), [ls[0]], ls[1..]);
      assert [ls[0]] + ls[1..] == ls;
    }
  }

  /**
   Whatever step is taken, and whatever the wait was, the control plane accepts the outcome exactly if the clock reading
   is not behind creation and hand-over and the step does not leave an odd wait. A reading taken before the lock may be
   behind: two people who confirm a hand-over at once can commit in the other order.
   */
  lemma StepManageableExactly(r: Record, l: Label)
    requires WellFormed(r) && Chronological(r) && PrepareFormat(r.rev.frozen) && ManagementFormat(r.rev.frozen)
    requires WholeInstants(r) && Enabled(r, l) && l.now > 0 && l.now % Microsecond == 0
    ensures ValidManagementRecord(Project(Next(r, l))) <==>
              && r.rev.frozen.createdAt <= l.now && Next(r, l).rev.manualRequiredAt <= l.now
              && !EndsOddly(WaitsOddly(r), [l])
  {
    StepSetsWait(r, l);
    StepKeepsWellFormed(r, l);
    StepBumpsVersion(r, l);
    StepTimes(r, l);
    hide EndsOddly, PrepareFormat, Next, Enabled, WellFormed, Chronological, ManagementFormat, WholeInstants, WaitsOddly, InOrder;
    ManageableInOrder(Next(r, l));
  }

  /** The order of instants that the control plane asks for. */
  predicate InOrder(r: Record) {
    && r.rev.frozen.createdAt <= r.rev.updatedAt
    && ValidManagementLifecycleTime(r.rev.manualRequiredAt, r.rev.frozen.createdAt, r.rev.updatedAt)
    && ValidManagementLifecycleTime(r.rev.revokedAt, r.rev.frozen.createdAt, r.rev.updatedAt)
    && (r.rev.revokedAt != Zero ==> r.rev.manualRequiredAt == Zero || r.rev.manualRequiredAt <= r.rev.revokedAt)
  }

  lemma ManageableInOrder(r: Record)
    requires WellFormed(r) && PrepareFormat(r.rev.frozen) && ManagementFormat(r.rev.frozen) && WholeInstants(r)
    requires 0 < r.rev.frozen.createdAt && r.rev.availableAt != Zero && r.rev.updatedAt != Zero
    ensures ValidManagementRecord(Project(r)) <==> InOrder(r) && !WaitsOddly(r)
  {
    AdminNeedsConfirmation(r);
    hide ValidUUID, ValidIdentifier;
    var m := Project(r);
    assert m.revokedAt == Zero || ValidManagementTime(m.revokedAt);
    if r.rev.status == Revoked && r.rev.evidenceHash == "" {
      assert Unconfirmed(r);
    }
  }

  lemma StepTimes(r: Record, l: Label)
    requires WellFormed(r) && Chronological(r) && Enabled(r, l) && l.now > 0
    ensures var n := Next(r, l);
            && 0 < n.rev.frozen.createdAt && n.rev.availableAt != Zero && n.rev.updatedAt != Zero
            && (InOrder(n) <==> r.rev.frozen.createdAt <= l.now && n.rev.manualRequiredAt <= l.now)
  {
    hide ChildBudget, FailureFields, OneEvidence, FencedCompletion, TwoPersonCompletion;
  }

  /** Steps that hand a record over to people. */
  predicate HandsOver(l: Label) {
    l.GiveUp? || l.Exhaust?
  }

  /** The reading at which a life ends, which began at `first`. */
  function EndsAt(first: Time, ls: seq<Label>): Time {
    if |ls| == 0 then first else ls[|ls| - 1].now
  }

  /** The reading of the last hand-over; `first` if there was none. */
  function HandedOverAt(first: Time, ls: seq<Label>): Time {
    if |ls| == 0 then first
    else if HandsOver(ls[|ls| - 1]) then ls[|ls| - 1].now
    else HandedOverAt(first, ls[..|ls| - 1])
  }

  /** Instants are set, and a revocation is the last thing that happens to a record. */
  predicate Dated(r: Record) {
    && 0 < r.rev.frozen.createdAt && 0 < r.rev.updatedAt && 0 < r.rev.availableAt && 0 <= r.rev.manualRequiredAt
    && (r.rev.revokedAt == Zero || (r.rev.status == Revoked && r.rev.revokedAt == r.rev.updatedAt))
  }

  lemma StepDates(r: Record, l: Label)
    requires Dated(r) && Enabled(r, l) && l.now > 0
    ensures var n := Next(r, l);
            && Dated(n) && n.rev.frozen == r.rev.frozen && n.rev.updatedAt == l.now
            && n.rev.manualRequiredAt == if HandsOver(l) then l.now else r.rev.manualRequiredAt
  {
  }

  lemma {:induction false} HandedOverSplit(first: Time, a: seq<Label>, b: seq<Label>)
    ensures HandedOverAt(first, a + b) == HandedOverAt(HandedOverAt(first, a), b)
    ensures EndsAt(first, a + b) == EndsAt(EndsAt(first, a), b)
    decreases |b|
  {
    if |b| == 0 {
      assert a + b == a;
    } else {
      assert (a + b)[..|a + b| - 1] == a + b[..|b| - 1];
      HandedOverSplit(first, a, b[..|b| - 1]);
    }
  }

  /** Over a whole life, in whatever order the clock was read: the record shows the last reading and that of the last hand-over. */
  lemma {:induction false} LifeDates(r: Record, ls: seq<Label>)
    requires Dated(r) && Legal(r, ls) && forall l | l in ls :: l.now > 0
    ensures var n := Play(r, ls);
            && Dated(n) && n.rev.frozen == r.rev.frozen && n.rev.updatedAt == EndsAt(r.rev.updatedAt, ls)
            && n.rev.manualRequiredAt == HandedOverAt(r.rev.manualRequiredAt, ls)
    decreases |ls|
  {
    hide Dated, Next, Enabled;
    if |ls| > 0 {
      StepDates(r, ls[0]);
      LifeDates(Next(r, ls[0]), ls[1..]);
      HandedOverSplit(r.rev.manualRequiredAt, [ls[0]], ls[1..]);
      HandedOverSplit(r.rev.updatedAt, [ls[0]], ls[1..]);
      assert [ls[0]] + ls[1..] == ls && [ls[0]][..0] == [];
    }
  }

  /** A life's readings are in the order the control plane asks for. */
  predicate ReadInOrder(created: Time, ls: seq<Label>) {
    var last, handed := EndsAt(created, ls), HandedOverAt(Zero, ls);
    created <= last && (handed == Zero || created <= handed <= last)
  }

  /** The control plane accepts a record exactly if its identifiers are in format, its wait is whole and its instants are in order. */
  lemma ManageableWhenDated(r: Record)
    requires WellFormed(r) && PrepareFormat(r.rev.frozen) && WholeInstants(r) && Dated(r)
    ensures ValidManagementRecord(Project(r)) <==>
              && ManagementFormat(r.rev.frozen) && !WaitsOddly(r) && r.rev.frozen.createdAt <= r.rev.updatedAt
              && (r.rev.manualRequiredAt == Zero || r.rev.frozen.createdAt <= r.rev.manualRequiredAt <= r.rev.updatedAt)
  {
    if ManagementFormat(r.rev.frozen) { ManageableInOrder(r); }
    hide WellFormed, PrepareFormat, WholeInstants, WaitsOddly, ValidUUID, ValidIdentifier;
  }

  /** A retry leaves a record the control plane accepts exactly if its delay is whole microseconds, whatever the earlier waits. */
  lemma RetryManageableExactly(r: Record, l: Label)
    requires WellFormed(r) && Chronological(r) && PrepareFormat(r.rev.frozen) && ManagementFormat(r.rev.frozen)
    requires WholeInstants(r) && l.Retry? && Enabled(r, l)
    requires l.now >= r.rev.updatedAt && l.now % Microsecond == 0
    ensures ValidManagementRecord(Project(Next(r, l))) <==> l.delay % Microsecond == 0
  {
    assert WellFormed(Next(r, l)) by { StepKeepsWellFormed(r, l); }
    assert Chronological(Next(r, l)) by { StepKeepsChronological(r, l); }
    StepBumpsVersion(r, l);
    ManageableExactly(Next(r, l));
    StepSetsWait(r, l);
  }
}
