/** What every run of the repository guarantees to its callers. */
module RepositorySafety {
  import opened Options
  import opened Text
  import opened Revocations
  import opened Lifecycle
  import opened LifecycleTraces
  import opened Management
  import opened RepositoryModel
  import opened RepositoryRuns
  import opened RepositoryDecisions

  // ---------------------------------------------------------------- clocks

  /** Readings never run backwards, within a call or between calls. */
  ghost predicate Clocked(cs: seq<Call>, t: Time)
    decreases |cs|
  {
    |cs| > 0 ==> t <= cs[0].now <= LastReading(cs[0]) && Clocked(cs[1..], LastReading(cs[0]))
  }

  lemma {:induction false} ClockedTicks(cs: seq<Call>, t: Time)
    requires Clocked(cs, t) && t > 0
    ensures AllTicking(cs)
    decreases |cs|
  {
    if |cs| > 0 {
      ClockedTicks(cs[1..], LastReading(cs[0]));
      assert cs == [cs[0]] + cs[1..];
    }
  }

  ghost predicate Timely(s: Store, t: Time) {
    forall id | id in s.records :: Chronological(s.records[id]) && s.records[id].rev.updatedAt <= t
  }

  lemma {:induction false} TraceStaysBehind(r: Record, ls: seq<Label>, t: Time)
    requires forall l | l in ls :: l.now <= t
    requires r.rev.updatedAt <= t
    ensures Play(r, ls).rev.updatedAt <= t
    decreases |ls|
  {
    if |ls| > 0 {
      StepBumpsVersion(r, ls[0]);
      TraceStaysBehind(Next(r, ls[0]), ls[1..], t);
    }
  }

  lemma RecordStaysTimely(sha: Hash, s: Store, c: Call, id: string, t: Time)
    requires Consistent(s) && Timely(s, t) && 0 < t <= c.now <= LastReading(c) && id in s.records
    ensures id in After(sha, s, c).records
    ensures var r := After(sha, s, c).records[id]; Chronological(r) && r.rev.updatedAt <= LastReading(c)
  {
    hide *;
    var r, ls := s.records[id], Moves(sha, s, c, id);
    RecordAfter(sha, s, c, id);
    ClaimEpochBounded(s, id);
    TimelyRecord(s, t, id);
    TicksForward(c);
    MovesFit(sha, s, c, id);
    FitIsPunctual(r, ls, c.now, LastReading(c), DelayOf(c), MayEnliven(c));
    TraceKeepsChronological(r, ls);
    TraceStaysBehind(r, ls, LastReading(c));
  }

  lemma TimelyRecord(s: Store, t: Time, id: string)
    requires Timely(s, t) && id in s.records
    ensures Chronological(s.records[id]) && s.records[id].rev.updatedAt <= t
  {
    hide Chronological;
  }

  lemma TicksForward(c: Call)
    requires 0 < c.now <= LastReading(c)
    ensures Ticking(c)
  {
    hide LastReading;
  }

  lemma FitIsPunctual(r: Record, ls: seq<Label>, now: Time, last: Time, delay: Option<Duration>, live: bool)
    requires Fit(r, ls, now, last, delay, live) && r.rev.updatedAt <= now <= last
    ensures Legal(r, ls) && Punctual(r, ls) && (forall l | l in ls :: l.now <= last)
  {
    hide Legal, Punctual;
  }

  lemma TimelyAfter(sha: Hash, s: Store, c: Call, t: Time)
    requires Consistent(s) && Timely(s, t) && 0 < t <= c.now <= LastReading(c)
    ensures Timely(After(sha, s, c), LastReading(c))
  {
    hide After, Consistent, Chronological, PrepareOutcomeOf, NewRecord, Newborn, PrepareFormat;
    var a := After(sha, s, c);
    StoreAfter(sha, s, c);
    forall id | id in a.records ensures Chronological(a.records[id]) && a.records[id].rev.updatedAt <= LastReading(c) {
      if id in s.records {
        RecordStaysTimely(sha, s, c, id, t);
      } else {
        CreatedExactly(sha, s, c);
        NewRecordWellFormed(sha, c);
      }
    }
  }

  lemma {:induction false} TimelyRun(sha: Hash, s: Store, cs: seq<Call>, t: Time)
    requires Consistent(s) && Timely(s, t) && t > 0 && Clocked(cs, t)
    ensures Consistent(Run(sha, s, cs))
    ensures forall id | id in Run(sha, s, cs).records :: Chronological(Run(sha, s, cs).records[id])
    decreases |cs|
  {
    hide After, Consistent, Chronological;
    if |cs| > 0 {
      TimelyAfter(sha, s, cs[0], t);
      ConsistentAfter(sha, s, cs[0]);
      TimelyRun(sha, After(sha, s, cs[0]), cs[1..], LastReading(cs[0]));
    }
  }

  // ---------------------------------------------------------------- one permit, one child per action epoch

  predicate ForEpoch(r: Record, actionID: string, epoch: int) {
    r.rev.frozen.actionID == actionID && r.rev.frozen.actionLeaseEpoch == epoch
  }

  /** Permits a run hands out for one lease epoch of one action. */
  ghost function PermitsFor(sha: Hash, s: Store, cs: seq<Call>, actionID: string, epoch: int): nat
    decreases |cs|
  {
    if |cs| == 0 then 0
    else
      (if cs[0].Prepare? && PrepareReply(sha, s, cs[0]).Ok? && PrepareReply(sha, s, cs[0]).value.permit.Some?
          && cs[0].request.fence.actionID == actionID && cs[0].request.fence.epoch == epoch then 1 else 0)
      + PermitsFor(sha, After(sha, s, cs[0]), cs[1..], actionID, epoch)
  }

  lemma PermitMeansCreated(sha: Hash, s: Store, c: Call)
    requires c.Prepare? && PrepareReply(sha, s, c).Ok? && PrepareReply(sha, s, c).value.permit.Some?
    ensures PrepareOutcomeOf(sha, s, c).Created?
    ensures PrepareReply(sha, s, c).value.permit.value.revocationID == c.request.revocationID
  {
    hide PrepareRefusal, SamePrepare, NewRecord, ActionEpochKey, ValidOpaqueText;
  }

  /** At most one permit is ever returned for an action epoch, whatever else the run contains. */
  lemma {:induction false} OnePermitPerEpoch(sha: Hash, s: Store, cs: seq<Call>, actionID: string, epoch: int)
    ensures PermitsFor(sha, s, cs, actionID, epoch) <= if ActionEpochKey(actionID, epoch) in s.epochs then 0 else 1
    decreases |cs|
  {
    hide After, PrepareReply, PrepareOutcomeOf, ActionEpochKey;
    if |cs| > 0 {
      var c := cs[0];
      StoreAfter(sha, s, c);
      OnePermitPerEpoch(sha, After(sha, s, c), cs[1..], actionID, epoch);
      if c.Prepare? && PrepareReply(sha, s, c).Ok? && PrepareReply(sha, s, c).value.permit.Some? {
        PermitMeansCreated(sha, s, c);
        CreatedExactly(sha, s, c);
      }
    }
  }

  /** A call that commits a child authorization for the given action epoch. */
  ghost predicate AuthorizesChild(sha: Hash, s: Store, c: Call, actionID: string, epoch: int) {
    && c.AuthorizeChildCreate? && Decision(sha, s, c).Ok?
    && ForEpoch(s.records[Target(c)], actionID, epoch)
  }

  ghost function ChildrenFor(sha: Hash, s: Store, cs: seq<Call>, actionID: string, epoch: int): nat
    decreases |cs|
  {
    if |cs| == 0 then 0
    else (if AuthorizesChild(sha, s, cs[0], actionID, epoch) then 1 else 0)
         + ChildrenFor(sha, After(sha, s, cs[0]), cs[1..], actionID, epoch)
  }

  ghost predicate ChildAuthorized(s: Store, actionID: string, epoch: int) {
    exists id :: id in s.records && ForEpoch(s.records[id], actionID, epoch) && s.records[id].childAuthorizedAt != Zero
  }

  lemma AuthorizedStays(sha: Hash, s: Store, c: Call, actionID: string, epoch: int)
    requires Consistent(s) && Ticking(c) && ChildAuthorized(s, actionID, epoch)
    ensures ChildAuthorized(After(sha, s, c), actionID, epoch)
  {
    hide Play, Moves, After, Consistent, Legal, WellFormed;
    var id :| id in s.records && ForEpoch(s.records[id], actionID, epoch) && s.records[id].childAuthorizedAt != Zero;
    RecordAfter(sha, s, c, id);
    ClaimEpochBounded(s, id);
    MovesFit(sha, s, c, id);
    OneChildPerRecord(s.records[id], Moves(sha, s, c, id));
    VersionCountsSteps(s.records[id], Moves(sha, s, c, id));
    assert After(sha, s, c).records[id].childAuthorizedAt != Zero;
  }

  /** Two records of one action epoch are one record. */
  lemma OneRecordPerEpoch(s: Store, a: string, b: string, actionID: string, epoch: int)
    requires Consistent(s) && a in s.records && b in s.records
    requires ForEpoch(s.records[a], actionID, epoch) && ForEpoch(s.records[b], actionID, epoch)
    ensures a == b
  {
    hide WellFormed, PrepareFormat, ActionEpochKey;
    assert RecordKey(s.records[a]) == RecordKey(s.records[b]);
  }

  lemma AuthorizationIsFirst(sha: Hash, s: Store, c: Call, actionID: string, epoch: int)
    requires Consistent(s) && Ticking(c) && AuthorizesChild(sha, s, c, actionID, epoch)
    ensures !ChildAuthorized(s, actionID, epoch)
    ensures ChildAuthorized(After(sha, s, c), actionID, epoch)
  {
    hide Decision, After, Consistent;
    var id := Target(c);
    AuthorizeCommits(sha, s, c);
    forall other | other in s.records && ForEpoch(s.records[other], actionID, epoch) ensures other == id {
      OneRecordPerEpoch(s, other, id, actionID, epoch);
    }
    assert ForEpoch(After(sha, s, c).records[id], actionID, epoch);
  }

  lemma AuthorizeCommits(sha: Hash, s: Store, c: Call)
    requires c.AuthorizeChildCreate? && c.now != Zero && Decision(sha, s, c).Ok?
    ensures Target(c) in s.records && s.records[Target(c)].childAuthorizedAt == Zero
    ensures Target(c) in After(sha, s, c).records
    ensures After(sha, s, c).records[Target(c)].childAuthorizedAt == c.now
    ensures After(sha, s, c).records[Target(c)].rev.frozen == s.records[Target(c)].rev.frozen
  {
    hide Refusal, After, Play, Next, Moves, AuthorizeSteps;
    var r := s.records[Target(c)];
    RecordAfter(sha, s, c, Target(c));
    TargetMoves(sha, s, c);
    AuthorizeIsOneStep(sha, r, c.permit.token, c.fence, c.gate.inspection, c.now);
    var l := Authorize(c.now, ChildTTLAt(r, c.now));
    PlaySteps(r, l, l);
    StepAuthorizesOnce(r, l);
    StepBumpsVersion(r, l);
  }

  lemma TargetMoves(sha: Hash, s: Store, c: Call)
    requires OnOneRecord(c) && Decision(sha, s, c).Ok?
    ensures Target(c) in s.records && Moves(sha, s, c, Target(c)) == Decision(sha, s, c).value
    ensures Decision(sha, s, c) == Steps(sha, s.records[Target(c)], c)
  {
    hide Refusal, Steps, Target, SweepMoves;
  }

  lemma AuthorizeIsOneStep(sha: Hash, r: Record, token: string, fence: ActionFence, i: Inspection, now: Time)
    requires AuthorizeSteps(sha, r, token, fence, i, now).Ok?
    ensures var l := Authorize(now, ChildTTLAt(r, now));
            AuthorizeSteps(sha, r, token, fence, i, now).value == [l] && Enabled(r, l) && r.childAuthorizedAt == Zero
  {
    hide FenceCurrent, FenceMatches, ScopeMatches;
  }

  /** At most one child creation is ever authorized for an action epoch, in any run from any consistent store. */
  lemma {:induction false} OneChildPerEpoch(sha: Hash, s: Store, cs: seq<Call>, actionID: string, epoch: int)
    requires Consistent(s) && AllTicking(cs)
    ensures ChildrenFor(sha, s, cs, actionID, epoch) <= if ChildAuthorized(s, actionID, epoch) then 0 else 1
    decreases |cs|
  {
    hide After, Consistent, AuthorizesChild, ChildAuthorized;
    if |cs| > 0 {
      var c := cs[0];
      ConsistentAfter(sha, s, c);
      OneChildPerEpoch(sha, After(sha, s, c), cs[1..], actionID, epoch);
      if AuthorizesChild(sha, s, c, actionID, epoch) {
        AuthorizationIsFirst(sha, s, c, actionID, epoch);
      } else if ChildAuthorized(s, actionID, epoch) {
        AuthorizedStays(sha, s, c, actionID, epoch);
      }
    }
  }

  // ---------------------------------------------------------------- the life of every reachable record

  /** How often operators asked to requeue a record. */
  ghost function Requeues(cs: seq<Call>, id: string): nat
    decreases |cs|
  {
    if |cs| == 0 then 0
    else (if cs[0].RequeueManual? && cs[0].id == id then 1 else 0) + Requeues(cs[1..], id)
  }

  lemma {:induction false} CountAtMost(p: Label -> bool, ls: seq<Label>)
    ensures Count(p, ls) <= |ls|
    ensures (forall l | l in ls :: !p(l)) ==> Count(p, ls) == 0
  {
    if |ls| > 0 { CountAtMost(p, ls[1..]); }
  }

  /** Only RequeueManual requeues, at most once, and only AuthorizeChildCreate authorizes. */
  predicate OwnSteps(c: Call, ls: seq<Label>) {
    && (forall l | l in ls :: isRequeue(l) ==> c.RequeueManual?)
    && (forall l | l in ls :: isAuthorize(l) ==> c.AuthorizeChildCreate?)
    && (c.RequeueManual? ==> |ls| <= 1)
  }

  lemma OwnTwo(c: Call, l: Label, m: Label)
    requires !isRequeue(l) && !isRequeue(m) && !c.RequeueManual?
    requires isAuthorize(l) || isAuthorize(m) ==> c.AuthorizeChildCreate?
    ensures OwnSteps(c, []) && OwnSteps(c, [l]) && OwnSteps(c, [l, m])
  {
  }

  lemma AnchorOwns(c: Call, r: Record, current: bool, p: Protector, last: Time)
    requires !c.RequeueManual? && AnchorWhen(r, current, p, last).Ok?
    ensures OwnSteps(c, AnchorWhen(r, current, p, last).value)
  {
    hide OwnSteps;
    OwnTwo(c, Request(last), Request(last));
    if p.protect.Some? { OwnTwo(c, Anchor(last, p.protect.value), Request(last)); }
  }

  lemma ActivateOwns(c: Call, r: Record, current: bool, stillCurrent: bool, now: Time, last: Time)
    requires !c.RequeueManual? && ActivateWhen(r, current, stillCurrent, now, last).Ok?
    ensures OwnSteps(c, ActivateWhen(r, current, stillCurrent, now, last).value)
  {
    hide OwnSteps;
    OwnTwo(c, Request(now), Request(last));
    OwnTwo(c, Request(last), Request(last));
    OwnTwo(c, MarkActive(now), Request(last));
  }

  lemma ActionsOwn(sha: Hash, r: Record, c: Call)
    requires ActionCall(c) && ActionSteps(sha, r, c).Ok?
    ensures OwnSteps(c, ActionSteps(sha, r, c).value)
  {
    hide *;
    CallsOfActions(c);
    if c.AuthorizeChildCreate? { AuthorizeCallOwns(sha, r, c); }
    else if c.RecordNoCredential? { NoCredentialCallOwns(sha, r, c); }
    else { LiveCallOwns(sha, r, c); }
  }

  lemma CallsOfActions(c: Call)
    requires ActionCall(c)
    ensures c.AuthorizeChildCreate? || c.RecordNoCredential? || c.RecordAnchor? || c.Activate?
  {
  }

  lemma AuthorizeCallOwns(sha: Hash, r: Record, c: Call)
    requires c.AuthorizeChildCreate? && ActionSteps(sha, r, c).Ok?
    ensures OwnSteps(c, ActionSteps(sha, r, c).value)
  {
    hide FenceCurrent, FenceMatches, ScopeMatches, ChildTTLAt, OwnSteps;
    OwnTwo(c, Authorize(c.now, ChildTTLAt(r, c.now)), Request(c.now));
  }

  lemma NoCredentialCallOwns(sha: Hash, r: Record, c: Call)
    requires c.RecordNoCredential? && ActionSteps(sha, r, c).Ok?
    ensures OwnSteps(c, ActionSteps(sha, r, c).value)
  {
    hide FenceMatches, OwnSteps;
    OwnTwo(c, MarkNoCredential(c.now), Request(c.now));
  }

  lemma LiveCallOwns(sha: Hash, r: Record, c: Call)
    requires (c.RecordAnchor? || c.Activate?) && ActionSteps(sha, r, c).Ok?
    ensures OwnSteps(c, ActionSteps(sha, r, c).value)
  {
    hide FenceCurrent, FenceMatches, ScopeMatches, OwnSteps, AnchorWhen, ActivateWhen;
    var i, now, last := c.gate.inspection, c.now, c.finalNow;
    var current, still := FenceCurrent(r, i, now, 0), FenceCurrent(r, i, last, MinPostChildFenceWindow);
    if c.RecordAnchor? { AnchorOwns(c, r, current && still, c.protector, last); } else { ActivateOwns(c, r, current, still, now, last); }
  }

  lemma WorkersOwn(sha: Hash, r: Record, c: Call)
    requires ClaimCall(c) && WorkerSteps(sha, r, c).Ok?
    ensures OwnSteps(c, WorkerSteps(sha, r, c).value)
  {
    hide HoldsClaim, Exhausted, KeyOf;
  }

  lemma RequeueOwns(c: Call, now: Time)
    requires c.RequeueManual?
    ensures OwnSteps(c, []) && OwnSteps(c, [Requeue(now)])
  {
  }

  lemma OperatorsOwn(sha: Hash, r: Record, c: Call)
    requires OperatorCall(c) && OperatorSteps(sha, r, c).Ok?
    ensures OwnSteps(c, OperatorSteps(sha, r, c).value)
  {
    hide FenceMatches, ConfirmSteps, RecoverManagedSteps, RequestSteps, RequeueSteps, OwnSteps;
    match c
    case RecoverManagedOne(_, gate, now) =>
      RecoveryTakesOneStep(r, gate.inspection, now);
      OwnTwo(c, Request(now), Request(now));
    case RequestRevocation(_, _, _, now) =>
      RequestTakesOneStep(r, now);
      OwnTwo(c, Request(now), Request(now));
    case RequeueManual(_, _, now) =>
      RequeueTakesOneStep(r, now);
      RequeueOwns(c, now);
    case SubmitExternalConfirmation(_, subject, evidence, admin, now) =>
      ConfirmTakesOneStep(r, subject, evidence, admin, now);
      OwnTwo(c, Confirm(now, subject, evidence, admin), Request(now));
  }

  lemma RecoveryTakesOneStep(r: Record, i: Inspection, now: Time)
    ensures var steps := RecoverManagedSteps(r, i, now);
            steps.Ok? && (steps.value == [] || steps.value == [Request(now)])
  {
    hide FenceCurrent, ScopeMatches;
  }

  lemma RequestTakesOneStep(r: Record, now: Time)
    ensures var steps := RequestSteps(r, now); steps.Ok? ==> steps.value == [] || steps.value == [Request(now)]
  {
  }

  lemma RequeueTakesOneStep(r: Record, now: Time)
    ensures var steps := RequeueSteps(r, now); steps.Ok? ==> steps.value == [] || steps.value == [Requeue(now)]
  {
  }

  lemma ConfirmTakesOneStep(r: Record, subject: string, evidence: string, admin: bool, now: Time)
    ensures var steps := ConfirmSteps(r, subject, evidence, admin, now);
            steps.Ok? ==> steps.value == [] || steps.value == [Confirm(now, subject, evidence, admin)]
  {
    hide HasAdmin;
  }

  lemma StepsOwn(sha: Hash, r: Record, c: Call)
    requires OnOneRecord(c) && Steps(sha, r, c).Ok?
    ensures OwnSteps(c, Steps(sha, r, c).value)
  {
    hide ActionSteps, WorkerSteps, OperatorSteps, OwnSteps;
    if ActionCall(c) { ActionsOwn(sha, r, c); }
    else if ClaimCall(c) { WorkersOwn(sha, r, c); }
    else { OperatorsOwn(sha, r, c); }
  }

  lemma SweepStepsOwn(sha: Hash, r: Record, id: string, c: Call, i: nat)
    requires Sweep(c) && (c.ClaimRevocations? ==> c.tokens(i).Some?)
    ensures OwnSteps(c, SweepSteps(sha, r, id, c, i))
  {
    hide OwnSteps;
    match c
    case RecoverPrepared(_, now) => OwnTwo(c, MarkNoCredential(now), Request(now));
    case RecoverExhausted(_, now) => OwnTwo(c, Exhaust(now, sha(FailureDetailExhaustedWithoutAck)), Request(now));
    case ClaimRevocations(worker, _, lease, tokens, _, now) =>
      var digest := sha(tokens(i).value);
      OwnTwo(c, Claim(now, worker, lease, digest),
        GiveUp(now, ClaimKey(worker, digest, r.rev.claimEpoch + 1), InvalidReference, sha(FailureDetailProtectedRefInvalid)));
  }

  lemma SweepsOwn(sha: Hash, s: Store, c: Call, id: string)
    requires id in s.records && Sweep(c)
    ensures OwnSteps(c, SweepMoves(sha, s, c, id))
  {
    hide Chosen, SweepSteps, OwnSteps, Eligible, OrderOf;
    NothingOwned(c);
    var p := Position(Chosen(s, c), id);
    if p.Some? && SweepCommits(s, c) {
      if c.ClaimRevocations? { CommitHasTokens(s, c, Chosen(s, c), 0, p.value); }
      SweepStepsOwn(sha, s.records[id], id, c, p.value);
    }
  }

  lemma NothingOwned(c: Call)
    ensures OwnSteps(c, [])
  {
  }

  lemma MovesOwn(sha: Hash, s: Store, c: Call, id: string)
    requires id in s.records
    ensures OwnSteps(c, Moves(sha, s, c, id))
  {
    hide *;
    NothingOwned(c);
    if Sweep(c) {
      SweepHasMoves(sha, s, c, id);
      SweepsOwn(sha, s, c, id);
    } else {
      OneRecordTraits(sha, s, c, id);
      if Moves(sha, s, c, id) != [] { StepsOwn(sha, s.records[id], c); }
    }
  }

  lemma MovesCountRequeues(sha: Hash, s: Store, c: Call, id: string)
    requires id in s.records
    ensures Count(isRequeue, Moves(sha, s, c, id)) <= if c.RequeueManual? && c.id == id then 1 else 0
  {
    hide Moves, Count, isRequeue;
    MovesOwn(sha, s, c, id);
    if c.RequeueManual? && c.id != id { OtherRecordsStill(sha, s, c, id); }
    CountAtMost(isRequeue, Moves(sha, s, c, id));
  }

  lemma {:induction false} TraceCountsRequeues(sha: Hash, s: Store, cs: seq<Call>, id: string)
    requires id in s.records
    ensures Count(isRequeue, TraceOf(sha, s, cs, id)) <= Requeues(cs, id)
    decreases |cs|
  {
    hide Moves, After, Count;
    if |cs| == 0 {
      CountAtMost(isRequeue, []);
    } else {
      RecordAfter(sha, s, cs[0], id);
      MovesCountRequeues(sha, s, cs[0], id);
      TraceCountsRequeues(sha, After(sha, s, cs[0]), cs[1..], id);
      CountSplit(isRequeue, Moves(sha, s, cs[0], id), TraceOf(sha, After(sha, s, cs[0]), cs[1..], id));
    }
  }

  /** Every record of a reachable store lived a legal life since the Prepare that created it, requeued only on request. */
  lemma {:induction false} History(sha: Hash, s: Store, cs: seq<Call>, id: string) returns (birth: Record, life: seq<Label>)
    requires Consistent(s) && AllTicking(cs)
    requires id in Run(sha, s, cs).records && id !in s.records
    ensures Newborn(birth) && birth.rev.frozen.id == id && Legal(birth, life)
    ensures Run(sha, s, cs).records[id] == Play(birth, life)
    ensures Count(isRequeue, life) <= Requeues(cs, id)
    decreases |cs|
  {
    hide Play, Moves, After, Legal, Consistent, Newborn, PrepareOutcomeOf, NewRecord, Count, TraceOf;
    hide PrepareRefusal, Chronological, PrepareFormat, RecordKey, ActionEpochKey;
    var a := After(sha, s, cs[0]);
    ConsistentAfter(sha, s, cs[0]);
    StoreAfter(sha, s, cs[0]);
    if id in a.records {
      CreatedExactly(sha, s, cs[0]);
      NewRecordWellFormed(sha, cs[0]);
      RunTrace(sha, a, cs[1..], id);
      TraceCountsRequeues(sha, a, cs[1..], id);
      birth, life := a.records[id], TraceOf(sha, a, cs[1..], id);
    } else {
      birth, life := History(sha, a, cs[1..], id);
    }
  }

  lemma EmptyIsConsistent(id: string)
    ensures Consistent(EmptyStore) && id !in EmptyStore.records
  {
  }

  lemma BudgetOfWellFormed(r: Record)
    requires WellFormed(r)
    ensures 0 <= CycleClaims(r) <= MaxRevocationAttempts
    ensures r.rev.status == RevocationPending ==> CycleClaims(r) < MaxRevocationAttempts
  {
  }

  lemma NewbornBudget(r: Record)
    requires Newborn(r)
    ensures r.rev.attempt == 0 == r.rev.failureCount
    ensures ClaimBudget(r) <= MaxRevocationAttempts && FailureBudget(r) <= MaxRevocationAttempts
  {
  }

  /**
   In every run, a record has taken at most 12 claims and 12 recorded failures for each cycle, where only
   a RequeueManual call on it opens a new cycle; while it is pending at most 11 claims of its cycle are spent.
   */
  lemma ReachableBudget(sha: Hash, cs: seq<Call>, id: string)
    requires AllTicking(cs) && id in Run(sha, EmptyStore, cs).records
    ensures var r := Run(sha, EmptyStore, cs).records[id];
            && 0 <= CycleClaims(r) <= MaxRevocationAttempts
            && (r.rev.status == RevocationPending ==> CycleClaims(r) < MaxRevocationAttempts)
            && r.rev.attempt <= MaxRevocationAttempts * (Requeues(cs, id) + 1)
            && r.rev.failureCount <= MaxRevocationAttempts * (Requeues(cs, id) + 1)
  {
    hide Run, Play, Legal, Count, Requeues, Newborn, WellFormed, Consistent, ClaimBudget, FailureBudget, CycleClaims;
    EmptyIsConsistent(id);
    var birth, life := History(sha, EmptyStore, cs, id);
    NewbornShape(birth);
    NewbornBudget(birth);
    RetryBudget(birth, life);
    TraceKeepsWellFormed(birth, life);
    BudgetOfWellFormed(Play(birth, life));
  }

  /** A NO_CREDENTIAL record is safe to forget and a REVOKED record has exactly one cause. */
  predicate SoundTerminal(r: Record) {
    && (r.rev.status == NoCredential ==>
          && !r.rev.accessorPresent && r.protected == NoReference
          && (r.childAuthorizedAt == Zero
              || r.childAuthorizedAt + r.childTTL + ChildCreateExpiryReserve + PreparedRecoveryGrace <= r.rev.updatedAt))
    && (r.rev.status == Revoked ==> (FencedCompletion(r) && |r.confirmations| == 0) != TwoPersonCompletion(r))
  }

  lemma WellFormedIsSoundTerminal(r: Record)
    requires WellFormed(r)
    ensures SoundTerminal(r)
  {
  }

  lemma ReachableTerminal(sha: Hash, cs: seq<Call>, id: string)
    requires AllTicking(cs) && id in Run(sha, EmptyStore, cs).records
    ensures SoundTerminal(Run(sha, EmptyStore, cs).records[id])
  {
    hide *;
    EmptyIsConsistent(id);
    ConsistentRun(sha, EmptyStore, cs);
    ClaimEpochBounded(Run(sha, EmptyStore, cs), id);
    WellFormedIsSoundTerminal(Run(sha, EmptyStore, cs).records[id]);
  }

  /** A terminal record is the same record after any further calls. */
  lemma TerminalForever(sha: Hash, s: Store, cs: seq<Call>, id: string)
    requires Consistent(s) && AllTicking(cs) && id in s.records && Terminal(s.records[id].rev.status)
    ensures id in Run(sha, s, cs).records && Run(sha, s, cs).records[id] == s.records[id]
  {
    hide Run, Play, Legal, Consistent, TraceOf;
    RunTrace(sha, s, cs, id);
    TerminalIsAbsorbing(s.records[id], TraceOf(sha, s, cs, id));
    NothingHappens(s.records[id]);
  }

  // ---------------------------------------------------------------- claim fencing

  lemma StaleKeyRefused(sha: Hash, r: Record, c: Call)
    requires ClaimCall(c) && c.claim.epoch != r.rev.claimEpoch && c.claim.epoch != r.completedClaimEpoch
    ensures WorkerSteps(sha, r, c) == Err(StaleClaim)
  {
  }

  /**
   Once a record has been claimed again, every heartbeat, completion, retry and hand-over under the earlier claim's
   fence is refused as stale, unless it is refused as malformed, for the rest of every run.
   */
  lemma SupersededFenceIsRefused(sha: Hash, s: Store, cs: seq<Call>, id: string, c: Call)
    requires Consistent(s) && AllTicking(cs) && id in s.records
    requires ClaimCall(c) && c.claim.revocationID == id && 0 < c.claim.epoch < s.records[id].rev.claimEpoch
    ensures OnOneRecord(c)
    ensures Decision(sha, Run(sha, s, cs), c) == Err(if Refusal(c).Some? then Refusal(c).value else StaleClaim)
  {
    hide Run, Play, Legal, Consistent, TraceOf, WellFormed, Decision, WorkerSteps, Refusal;
    RunTrace(sha, s, cs, id);
    ClaimEpochBounded(s, id);
    var r, ls, e := s.records[id], TraceOf(sha, s, cs, id), Run(sha, s, cs);
    SupersededFenceNeverCompleted(r, ls, KeyOf(sha, c.claim));
    ClaimEpochsGrow(r, ls);
    StaleKeyRefused(sha, e.records[id], c);
    ClaimCallDecides(sha, e, c);
  }

  /** The fence that completed a record may be replayed and finds it unchanged; every other fence is stale. */
  lemma CompletionReplays(r: Record, key: ClaimKey, now: Time, later: seq<Label>, other: ClaimKey, again: Time)
    requires HoldsClaim(r, key, now)
    requires Legal(Next(r, Complete(now, key)), later)
    ensures later == []
    ensures CompleteSteps(Next(r, Complete(now, key)), key, again) == Ok([])
    ensures other != key ==> CompleteSteps(Next(r, Complete(now, key)), other, again) == Err(StaleClaim)
  {
    TerminalIsAbsorbing(Next(r, Complete(now, key)), later);
  }

  // ---------------------------------------------------------------- batches

  /** No record is in the batches of a claim call and of an exhaustion sweep at the same instant. */
  lemma SweepsAreDisjoint(s: Store, c: Call, d: Call, id: string)
    requires c.ClaimRevocations? && d.RecoverExhausted? && c.now == d.now
    ensures Position(Chosen(s, c), id).None? || Position(Chosen(s, d), id).None?
  {
    var p, q := Position(Chosen(s, c), id), Position(Chosen(s, d), id);
    assert p.Some? ==> Chosen(s, c)[p.value] in Chosen(s, c) && Claimable(s.records[id], c.now);
    assert q.Some? ==> Chosen(s, d)[q.value] in Chosen(s, d) && Exhaustible(s.records[id], c.now);
  }

  /**
   A claim call is atomic and deterministic: either no record changes, or exactly the first `limit`
   claimable records by (available, created, identifier) do, each becoming REVOKING or MANUAL_REQUIRED
   under a new epoch.
   */
  lemma ClaimBatch(sha: Hash, s: Store, c: Call, id: string)
    requires Consistent(s) && Ticking(c) && c.ClaimRevocations? && id in s.records
    ensures id in After(sha, s, c).records
    ensures var r := After(sha, s, c).records[id];
            if ClaimReply(sha, s, c).Err? || Position(Chosen(s, c), id).None? then r == s.records[id]
            else
              && Claimable(s.records[id], c.now)
              && r.rev.status == (if c.poison(id) then ManualRequired else Revoking)
              && r.rev.claimEpoch == s.records[id].rev.claimEpoch + 1
  {
    hide After, Play, Moves, Chosen, Position, ClaimRefusal, Consistent, ClaimSteps, Claimable;
    RecordAfter(sha, s, c, id);
    NothingHappens(s.records[id]);
    ClaimMoves(sha, s, c, id);
    var p := Position(Chosen(s, c), id);
    if p.Some? {
      assert Chosen(s, c)[p.value] in Chosen(s, c);
      ChosenMeansValid(s, c);
      if ClaimRefusal(s, c, Chosen(s, c), 0).None? {
        ClaimOutcome(sha, s.records[id], id, c, c.tokens(p.value).value);
      }
    }
  }

  lemma ClaimMoves(sha: Hash, s: Store, c: Call, id: string)
    requires id in s.records && c.ClaimRevocations?
    ensures var p := Position(Chosen(s, c), id);
            if p.Some? && ClaimRefusal(s, c, Chosen(s, c), 0).None?
            then c.tokens(p.value).Some? && Moves(sha, s, c, id) == ClaimSteps(sha, s.records[id], id, c, c.tokens(p.value).value)
            else Moves(sha, s, c, id) == []
  {
    hide Chosen, Position, ClaimRefusal, ClaimSteps;
    var p := Position(Chosen(s, c), id);
    if p.Some? && ClaimRefusal(s, c, Chosen(s, c), 0).None? {
      CommitHasTokens(s, c, Chosen(s, c), 0, p.value);
    }
  }

  lemma ClaimOutcome(sha: Hash, r: Record, id: string, c: Call, token: string)
    requires c.ClaimRevocations?
    ensures var n := Play(r, ClaimSteps(sha, r, id, c, token));
            && n.rev.status == (if c.poison(id) then ManualRequired else Revoking)
            && n.rev.claimEpoch == r.rev.claimEpoch + 1
  {
    hide Play, Next;
    var ls := ClaimSteps(sha, r, id, c, token);
    ClaimEffect(r, ls[0]);
    PlaySteps(r, ls[0], ls[0]);
    if c.poison(id) {
      PlaySteps(r, ls[0], ls[1]);
      GiveUpEffect(Next(r, ls[0]), ls[1]);
    }
  }

  lemma ClaimEffect(r: Record, l: Label)
    requires l.Claim?
    ensures Next(r, l).rev.status == Revoking && Next(r, l).rev.claimEpoch == r.rev.claimEpoch + 1
  {
  }

  lemma GiveUpEffect(r: Record, l: Label)
    requires l.GiveUp?
    ensures Next(r, l).rev.status == ManualRequired && Next(r, l).rev.claimEpoch == r.rev.claimEpoch
  {
  }

  // ---------------------------------------------------------------- prepare, cleanup inspection, confirmation

  /** A replayed Prepare always answers with the record of its own action epoch, found through the epoch map. */
  lemma ReplayFindsEpoch(sha: Hash, s: Store, c: Call)
    requires Consistent(s) && c.Prepare? && PrepareOutcomeOf(sha, s, c).Replayed?
    ensures ActionEpochKey(c.request.fence.actionID, c.request.fence.epoch) in s.epochs
    ensures s.epochs[ActionEpochKey(c.request.fence.actionID, c.request.fence.epoch)] == PrepareOutcomeOf(sha, s, c).id
  {
    hide *;
    ReplayedExactly(sha, s, c);
    PrepareAdmits(c);
    var id := c.request.revocationID;
    if id in s.records && SamePrepare(sha, s.records[id], c, c.second.value) {
      SamePrepareSameKey(sha, s.records[id], c, c.second.value);
      KeyOfRecord(s, id);
    }
  }

  lemma ReplayedExactly(sha: Hash, s: Store, c: Call)
    requires c.Prepare? && PrepareOutcomeOf(sha, s, c).Replayed?
    ensures PrepareRefusal(c).None? && c.second.Some?
    ensures var id, key := c.request.revocationID, ActionEpochKey(c.request.fence.actionID, c.request.fence.epoch);
            || (PrepareOutcomeOf(sha, s, c).id == id && id in s.records && SamePrepare(sha, s.records[id], c, c.second.value))
            || (key in s.epochs && PrepareOutcomeOf(sha, s, c).id == s.epochs[key])
  {
    hide PrepareRefusal, SamePrepare, ActionEpochKey, NewRecord;
    if PrepareRefusal(c).None? { PrepareAdmits(c); }
  }

  lemma KeyOfRecord(s: Store, id: string)
    requires Consistent(s) && id in s.records
    ensures RecordKey(s.records[id]) in s.epochs && s.epochs[RecordKey(s.records[id])] == id
  {
    hide WellFormed, PrepareFormat, RecordKey;
  }

  lemma SamePrepareSameKey(sha: Hash, r: Record, c: Call, m: Metadata)
    requires c.Prepare? && SamePrepare(sha, r, c, m)
    ensures RecordKey(r) == ActionEpochKey(m.actionID, m.leaseEpoch)
  {
    hide ActionEpochKey;
  }

  lemma PrepareAdmits(c: Call)
    requires c.Prepare? && PrepareRefusal(c).None?
    ensures c.second.Some?
    ensures c.second.value.actionID == c.request.fence.actionID && c.second.value.leaseEpoch == c.request.fence.epoch
  {
    hide ValidIdentifier, ValidOpaqueText, ValidUUID;
  }

  /** `InspectCleanup`: whether the action epoch has a record and whether that record is terminal. */
  function InspectCleanup(s: Store, actionID: string, epoch: int): Result<(bool, bool)> {
    if !ValidIdentifier(actionID, 256) || epoch <= 0 then Err(InvalidRequest)
    else
      var key := ActionEpochKey(actionID, epoch);
      if key !in s.epochs then Ok((false, false))
      else if s.epochs[key] !in s.records then Err(PersistenceFailed)
      else Ok((true, Terminal(s.records[s.epochs[key]].rev.status)))
  }

  /** Distinct action epochs have distinct keys. */
  lemma EpochKeyInjective(a: string, m: int, b: string, n: int)
    requires NulFree(a) && NulFree(b) && ActionEpochKey(a, m) == ActionEpochKey(b, n)
    ensures a == b && m == n
  {
    NulSplit(a, Decimal(m), b, Decimal(n));
    DecimalInjective(m, n);
  }

  lemma RecordActionNulFree(s: Store, id: string)
    requires Consistent(s) && id in s.records
    ensures NulFree(s.records[id].rev.frozen.actionID)
    ensures RecordKey(s.records[id]) in s.epochs && s.epochs[RecordKey(s.records[id])] == id
  {
    hide WellFormed, ValidOpaqueText;
    assert PrepareFormat(s.records[id].rev.frozen);
    IdentifierIsOpaqueText(s.records[id].rev.frozen.actionID, 256, 256);
  }

  /** The inspection never reports a broken store, and sees exactly the records of that action and epoch. */
  lemma InspectionIsExact(s: Store, actionID: string, epoch: int)
    requires Consistent(s) && ValidIdentifier(actionID, 256) && epoch > 0
    ensures InspectCleanup(s, actionID, epoch).Ok?
    ensures InspectCleanup(s, actionID, epoch).value.0 <==> exists id :: id in s.records && ForEpoch(s.records[id], actionID, epoch)
    ensures forall id | id in s.records && ForEpoch(s.records[id], actionID, epoch) ::
              InspectCleanup(s, actionID, epoch).value.1 == Terminal(s.records[id].rev.status)
  {
    IdentifierIsOpaqueText(actionID, 256, 256);
    hide WellFormed, PrepareFormat, ActionEpochKey, ValidOpaqueText, ValidIdentifier, NulFree;
    var key := ActionEpochKey(actionID, epoch);
    if key in s.epochs {
      var id := s.epochs[key];
      var f := s.records[id].rev.frozen;
      RecordActionNulFree(s, id);
      EpochKeyInjective(f.actionID, f.actionLeaseEpoch, actionID, epoch);
      assert ForEpoch(s.records[id], actionID, epoch);
    }
    forall id | id in s.records && ForEpoch(s.records[id], actionID, epoch)
      ensures key in s.epochs && s.epochs[key] == id
    {
      RecordActionNulFree(s, id);
    }
  }

  /** The branch that would take a second confirmation back is never entered. */
  lemma RollbackUnreachable(r: Record, subject: string, evidence: string, admin: bool, now: Time)
    requires ConfirmSteps(r, subject, evidence, admin, now) == Ok([Confirm(now, subject, evidence, admin)])
    ensures var after := r.confirmations[subject := Confirmation(subject, evidence, admin, now)];
            |after| >= 2 ==> HasAdmin(after)
  {
    var added := Confirmation(subject, evidence, admin, now);
    if |r.confirmations[subject := added]| >= 2 { AdminAmongTwo(r.confirmations, subject, added); }
  }

  lemma OtherRecordsStill(sha: Hash, s: Store, c: Call, id: string)
    requires OnOneRecord(c) && id in s.records && id != Target(c)
    ensures Moves(sha, s, c, id) == []
  {
    hide Decision;
  }
}
