/**
 What a run of `Issue` relies on: calls of others never give a record a usable credential, the
 revocation intent always takes it away, and an activation that shows is one this call made.
 */
module IssuanceSafety {
  import opened Options
  import opened Text
  import opened Revocations
  import opened Lifecycle
  import opened LifecycleTraces
  import opened RepositoryModel
  import opened RepositoryRuns
  import opened RepositorySafety
  import opened RepositoryDecisions

  // ---------------------------------------------------------------- calls without the action's fence

  /** What a record freezes of the fence it was prepared under, and what a call presents. */
  datatype FenceKey = FenceKey(actionID: string, runnerID: string, epoch: int, tokenSHA256: string)

  function HeldBy(r: Record): FenceKey {
    FenceKey(r.rev.frozen.actionID, r.rev.frozen.runnerID, r.rev.frozen.actionLeaseEpoch, r.actionTokenSHA256)
  }

  function Shown(sha: Hash, fence: ActionFence): FenceKey {
    FenceKey(fence.actionID, fence.runnerID, fence.epoch, sha(fence.token))
  }

  /** Calls that anchor or activate the record, if their fence lets them. */
  predicate CanEnliven(c: Call, id: string) {
    (c.RecordAnchor? || c.Activate?) && c.id == id
  }

  /** A call of somebody who does not hold the action's fence; it may present any other one. */
  predicate Stranger(sha: Hash, key: FenceKey, c: Call, id: string) {
    Ticking(c) && (CanEnliven(c, id) ==> Shown(sha, c.fence) != key)
  }

  ghost predicate Foreign(sha: Hash, key: FenceKey, cs: seq<Call>, id: string) {
    forall c | c in cs :: Stranger(sha, key, c, id)
  }

  ghost predicate Present(s: Store, id: string, key: FenceKey) {
    Consistent(s) && id in s.records && HeldBy(s.records[id]) == key
  }

  /** The record holds no usable credential. */
  ghost predicate Quiescent(s: Store, id: string, key: FenceKey) {
    Present(s, id, key) && !Live(s.records[id])
  }

  lemma MatchesExactly(sha: Hash, r: Record, fence: ActionFence)
    ensures FenceMatches(sha, r, fence) <==> Shown(sha, fence) == HeldBy(r)
  {
  }

  /** An anchor or activation under another fence is refused. */
  lemma StrangerIsRefused(sha: Hash, s: Store, c: Call, id: string)
    requires id in s.records && CanEnliven(c, id) && Shown(sha, c.fence) != HeldBy(s.records[id])
    ensures Moves(sha, s, c, id) == []
  {
    hide Moves, Decision, AnchorSteps, ActivateSteps, ValidUUID, ValidActionFence, FenceMatches, Shown, HeldBy, Target, OnOneRecord;
    MatchesExactly(sha, s.records[id], c.fence);
    if c.gate.Admitted? { StrangerStopped(sha, s.records[id], c); }
    GatedDecision(sha, s, c);
    MovesOfOne(sha, s, c, id);
  }

  lemma StrangerStopped(sha: Hash, r: Record, c: Call)
    requires (c.RecordAnchor? || c.Activate?) && !FenceMatches(sha, r, c.fence) && c.gate.Admitted?
    ensures c.RecordAnchor? ==> AnchorSteps(sha, r, c.fence, c.gate.inspection, c.protector, c.now, c.finalNow).Err?
    ensures c.Activate? ==> ActivateSteps(sha, r, c.fence, c.gate.inspection, c.now, c.finalNow).Err?
  {
    hide AnchorWhen, ActivateWhen, ScopeMatches, FenceCurrent, FenceMatches;
  }

  lemma EnlivensOther(c: Call, id: string)
    requires MayEnliven(c) && !CanEnliven(c, id)
    ensures OnOneRecord(c) && id != Target(c)
  {
  }

  lemma FitIsQuiet(r: Record, ls: seq<Label>, now: Time, last: Time, delay: Option<Duration>, live: bool)
    requires Fit(r, ls, now, last, delay, live)
    ensures Legal(r, ls) && (!live ==> forall l | l in ls :: !enlivens(l))
  {
    hide Legal, Punctual;
  }

  /** A stranger moves the record along a legal piece of its life without anchor and activation. */
  lemma StrangerMovesQuietly(sha: Hash, s: Store, c: Call, id: string, key: FenceKey)
    requires Present(s, id, key) && Stranger(sha, key, c, id)
    ensures Legal(s.records[id], Moves(sha, s, c, id))
    ensures forall l | l in Moves(sha, s, c, id) :: !enlivens(l)
  {
    hide Moves, Fit, Consistent, Ticking, Legal, MayEnliven, Shown;
    var r, ls := s.records[id], Moves(sha, s, c, id);
    ClaimEpochBounded(s, id);
    MovesFit(sha, s, c, id);
    FitIsQuiet(r, ls, c.now, LastReading(c), DelayOf(c), MayEnliven(c));
    if CanEnliven(c, id) {
      StrangerIsRefused(sha, s, c, id);
    } else if MayEnliven(c) {
      EnlivensOther(c, id);
      OtherRecordsStill(sha, s, c, id);
    }
  }

  lemma SameKey(r: Record, ls: seq<Label>)
    ensures HeldBy(Play(r, ls)) == HeldBy(r)
  {
    hide Play;
    VersionCountsSteps(r, ls);
  }

  lemma CallKeepsPresent(sha: Hash, s: Store, c: Call, id: string, key: FenceKey)
    requires Present(s, id, key) && Ticking(c)
    ensures Present(After(sha, s, c), id, key)
  {
    hide After, Consistent, Ticking, Play, Moves, HeldBy;
    ConsistentAfter(sha, s, c);
    RecordAfter(sha, s, c, id);
    SameKey(s.records[id], Moves(sha, s, c, id));
  }

  lemma StrangerKeepsQuiescent(sha: Hash, s: Store, c: Call, id: string, key: FenceKey)
    requires Quiescent(s, id, key) && Stranger(sha, key, c, id)
    ensures Quiescent(After(sha, s, c), id, key)
  {
    hide After, Consistent, Ticking, Live, Play, Moves, HeldBy, CanEnliven, Legal;
    CallKeepsPresent(sha, s, c, id, key);
    RecordAfter(sha, s, c, id);
    StrangerMovesQuietly(sha, s, c, id, key);
    NotLiveStaysNotLive(s.records[id], Moves(sha, s, c, id));
  }

  lemma {:induction false} ForeignKeepsPresent(sha: Hash, s: Store, cs: seq<Call>, id: string, key: FenceKey)
    requires Foreign(sha, key, cs, id) && Present(s, id, key)
    ensures Present(Run(sha, s, cs), id, key)
    decreases |cs|
  {
    hide After, Present, CanEnliven, Ticking;
    if |cs| > 0 {
      assert cs[0] in cs && forall c | c in cs[1..] :: c in cs;
      CallKeepsPresent(sha, s, cs[0], id, key);
      ForeignKeepsPresent(sha, After(sha, s, cs[0]), cs[1..], id, key);
    }
  }

  /** Calls of others, under whatever fence but the action's own, never make a record live. */
  lemma {:induction false} ForeignKeepsQuiescent(sha: Hash, s: Store, cs: seq<Call>, id: string, key: FenceKey)
    requires Foreign(sha, key, cs, id) && Quiescent(s, id, key)
    ensures Quiescent(Run(sha, s, cs), id, key)
    decreases |cs|
  {
    hide After, Quiescent, Stranger;
    if |cs| > 0 {
      assert cs[0] in cs && forall c | c in cs[1..] :: c in cs;
      StrangerKeepsQuiescent(sha, s, cs[0], id, key);
      ForeignKeepsQuiescent(sha, After(sha, s, cs[0]), cs[1..], id, key);
    }
  }

  // ---------------------------------------------------------------- the revocation intent

  function Intent(id: string, now: Time): Call {
    RequestRevocation(id, NoFence, None, now)
  }

  lemma IntentTraits(id: string, now: Time)
    requires now != Zero
    ensures Ticking(Intent(id, now))
  {
  }

  /** Once the intent has been persisted the record is not live, whatever it was before. */
  lemma IntentStops(sha: Hash, s: Store, id: string, key: FenceKey, now: Time)
    requires Present(s, id, key) && now != Zero
    ensures Quiescent(After(sha, s, Intent(id, now)), id, key)
  {
    hide After, Consistent, Live, Ticking, Play, Decision, HeldBy;
    IntentTraits(id, now);
    CallKeepsPresent(sha, s, Intent(id, now), id, key);
    IdentifierOfRecord(s, id);
    OperatorDecision(sha, s, Intent(id, now));
    Decided(sha, s, Intent(id, now));
    IntentEffect(s.records[id], now);
    hide ValidUUID, RequestSteps;
    IntentStore(sha, s, id, now);
  }

  lemma IdentifierOfRecord(s: Store, id: string)
    requires Consistent(s) && id in s.records
    ensures ValidUUID(id) && s.records[id].rev.frozen.id == id
  {
    hide WellFormed, ActionEpochKey, ValidUUID, ValidIdentifier;
  }

  lemma IntentEffect(r: Record, now: Time)
    ensures !Live(if RequestSteps(r, now).Ok? then Play(r, RequestSteps(r, now).value) else r)
  {
    NothingHappens(r);
    PlaySteps(r, Request(now), Request(now));
  }

  lemma IntentStore(sha: Hash, s: Store, id: string, now: Time)
    requires id in s.records && id in After(sha, s, Intent(id, now)).records
    requires Decision(sha, s, Intent(id, now)) == RequestSteps(s.records[id], now)
    ensures After(sha, s, Intent(id, now)).records[id] ==
              if RequestSteps(s.records[id], now).Ok? then Play(s.records[id], RequestSteps(s.records[id], now).value)
              else s.records[id]
  {
    hide After, RequestSteps, Decision, Play, Moves;
    RecordAfter(sha, s, Intent(id, now), id);
    MovesOfOne(sha, s, Intent(id, now), id);
    NothingHappens(s.records[id]);
  }

  // ---------------------------------------------------------------- activations

  lemma StepNotActive(r: Record, l: Label)
    requires r.rev.status != Active && Enabled(r, l) && !enlivens(l)
    ensures Next(r, l).rev.status != Active
  {
  }

  lemma {:induction false} NotActiveStays(r: Record, ls: seq<Label>)
    requires r.rev.status != Active && Legal(r, ls) && forall l | l in ls :: !enlivens(l)
    ensures Play(r, ls).rev.status != Active
    decreases |ls|
  {
    hide Next, Enabled;
    if |ls| > 0 {
      StepNotActive(r, ls[0]);
      assert forall l | l in ls[1..] :: l in ls;
      NotActiveStays(Next(r, ls[0]), ls[1..]);
    }
  }

  lemma StrangerKeepsNotActive(sha: Hash, s: Store, c: Call, id: string, key: FenceKey)
    requires Present(s, id, key) && Stranger(sha, key, c, id) && s.records[id].rev.status != Active
    ensures id in After(sha, s, c).records && After(sha, s, c).records[id].rev.status != Active
  {
    hide After, Consistent, Stranger, Moves, Legal, Play, HeldBy;
    RecordAfter(sha, s, c, id);
    StrangerMovesQuietly(sha, s, c, id, key);
    NotActiveStays(s.records[id], Moves(sha, s, c, id));
  }

  lemma {:induction false} ForeignKeepsNotActive(sha: Hash, s: Store, cs: seq<Call>, id: string, key: FenceKey)
    requires Present(s, id, key) && Foreign(sha, key, cs, id) && s.records[id].rev.status != Active
    ensures id in Run(sha, s, cs).records && Run(sha, s, cs).records[id].rev.status != Active
    decreases |cs|
  {
    hide After, Consistent, CanEnliven, Ticking, HeldBy;
    if |cs| > 0 {
      assert cs[0] in cs && forall c | c in cs[1..] :: c in cs;
      StrangerKeepsNotActive(sha, s, cs[0], id, key);
      CallKeepsPresent(sha, s, cs[0], id, key);
      ForeignKeepsNotActive(sha, After(sha, s, cs[0]), cs[1..], id, key);
    }
  }

  /** An activation that turns a record active found it anchored. */
  lemma ActivatedFromAnchored(sha: Hash, s: Store, c: Call, id: string)
    requires c.Activate? && c.id == id && id in s.records && s.records[id].rev.status != Active
    requires id in After(sha, s, c).records && After(sha, s, c).records[id].rev.status == Active
    ensures s.records[id].rev.status == Anchored
  {
    hide After, Decision, Play, Moves, ActivateSteps, ValidUUID, ValidActionFence;
    RecordAfter(sha, s, c, id);
    GatedDecision(sha, s, c);
    MovesOfOne(sha, s, c, id);
    NothingHappens(s.records[id]);
    ActivationOf(sha, s.records[id], c);
  }

  lemma ActivationOf(sha: Hash, r: Record, c: Call)
    requires c.Activate? && c.gate.Admitted? && r.rev.status != Active
    ensures var steps := ActivateSteps(sha, r, c.fence, c.gate.inspection, c.now, c.finalNow);
            steps.Ok? && Play(r, steps.value).rev.status == Active ==> r.rev.status == Anchored
  {
    hide FenceMatches, ScopeMatches, FenceCurrent, Next;
    NothingHappens(r);
  }
}
