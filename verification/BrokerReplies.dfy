/**
 Broker and repository agree, call by call. Between two calls of the broker others may call whatever they like, under
 any fence but the action's own and on one clock; these lemmas say which replies of the repository the broker then
 accepts, and that with an action that stays current the repository does reply.
 */
module BrokerReplies {
  import opened Options
  import opened Text
  import opened Revocations
  import opened Lifecycle
  import opened LifecycleTraces
  import opened Management
  import opened RepositoryModel
  import opened RepositoryRuns
  import opened RepositorySafety
  import opened RepositoryDecisions
  import opened BrokerChecks
  import opened BrokerAgreement
  import opened IssuanceSafety

  // ---------------------------------------------------------------- what happens between two calls

  /** The last reading of a run that starts at t. */
  function ReadingAfter(cs: seq<Call>, t: Time): Time
    decreases |cs|
  {
    if |cs| == 0 then t else ReadingAfter(cs[1..], LastReading(cs[0]))
  }

  /** A run of others, on one clock, against a store whose record the broker has last seen at or before t. */
  ghost predicate Meanwhile(sha: Hash, s: Store, cs: seq<Call>, t: Time, id: string, key: FenceKey) {
    && Present(s, id, key) && Foreign(sha, key, cs, id)
    && 0 < t && Clocked(cs, t) && Chronological(s.records[id]) && s.records[id].rev.updatedAt <= t
  }

  /** A run of anybody, on one clock, against a store whose record was last changed at or before t. */
  ghost predicate Later(s: Store, cs: seq<Call>, t: Time, id: string) {
    && Consistent(s) && id in s.records
    && 0 < t && Clocked(cs, t) && Chronological(s.records[id]) && s.records[id].rev.updatedAt <= t
  }

  lemma OneCallLater(sha: Hash, s: Store, c: Call, t: Time, id: string)
    requires Consistent(s) && id in s.records && Ticking(c) && 0 < t <= c.now <= LastReading(c)
    requires Chronological(s.records[id]) && s.records[id].rev.updatedAt <= t
    ensures id in After(sha, s, c).records && After(sha, s, c).records[id] == Play(s.records[id], Moves(sha, s, c, id))
    ensures Punctual(s.records[id], Moves(sha, s, c, id)) && Legal(s.records[id], Moves(sha, s, c, id))
    ensures Chronological(After(sha, s, c).records[id]) && After(sha, s, c).records[id].rev.updatedAt <= LastReading(c)
  {
    hide After, Moves, Consistent, Play, Legal, Punctual, Chronological, WellFormed, Fit, LastReading;
    var r, ls := s.records[id], Moves(sha, s, c, id);
    RecordAfter(sha, s, c, id);
    ClaimEpochBounded(s, id);
    MovesFit(sha, s, c, id);
    FitIsPunctual(r, ls, c.now, LastReading(c), DelayOf(c), MayEnliven(c));
    TraceKeepsChronological(r, ls);
    TraceStaysBehind(r, ls, LastReading(c));
  }

  /** What a run does to the record is a punctual life of it. */
  lemma {:induction false} LaterLife(sha: Hash, s: Store, cs: seq<Call>, t: Time, id: string)
    requires Later(s, cs, t, id)
    ensures Consistent(Run(sha, s, cs)) && id in Run(sha, s, cs).records
    ensures var ls := TraceOf(sha, s, cs, id);
            Run(sha, s, cs).records[id] == Play(s.records[id], ls) && Legal(s.records[id], ls) && Punctual(s.records[id], ls)
    ensures Chronological(Run(sha, s, cs).records[id]) && Run(sha, s, cs).records[id].rev.updatedAt <= ReadingAfter(cs, t)
    decreases |cs|
  {
    hide After, Moves, Consistent, Play, Legal, Punctual, Chronological, LastReading, Later, Clocked;
    LaterHas(s, cs, t, id);
    if |cs| == 0 {
      NothingHappens(s.records[id]);
    } else {
      var c, a := cs[0], After(sha, s, cs[0]);
      LaterGoesOn(sha, s, cs, t, id);
      LaterLife(sha, a, cs[1..], LastReading(c), id);
      PlaySplit(s.records[id], Moves(sha, s, c, id), TraceOf(sha, a, cs[1..], id));
    }
  }

  lemma LaterHas(s: Store, cs: seq<Call>, t: Time, id: string)
    requires Later(s, cs, t, id)
    ensures Consistent(s) && id in s.records && Chronological(s.records[id]) && s.records[id].rev.updatedAt <= t
  {
    hide Consistent, Chronological, Clocked;
  }

  /** After one of its calls, what is left of a later run is still one. */
  lemma LaterGoesOn(sha: Hash, s: Store, cs: seq<Call>, t: Time, id: string)
    requires Later(s, cs, t, id) && |cs| > 0
    ensures var c, a := cs[0], After(sha, s, cs[0]);
            && Later(a, cs[1..], LastReading(c), id) && a.records[id] == Play(s.records[id], Moves(sha, s, c, id))
            && Punctual(s.records[id], Moves(sha, s, c, id)) && Legal(s.records[id], Moves(sha, s, c, id))
  {
    hide After, Moves, Consistent, Play, Legal, Punctual, Chronological, LastReading, Ticking;
    TicksForward(cs[0]);
    OneCallLater(sha, s, cs[0], t, id);
    ConsistentAfter(sha, s, cs[0]);
  }

  lemma {:induction false} QuietTrace(sha: Hash, s: Store, cs: seq<Call>, id: string, key: FenceKey)
    requires Present(s, id, key) && Foreign(sha, key, cs, id)
    ensures Quiet(TraceOf(sha, s, cs, id))
    decreases |cs|
  {
    hide After, Moves, Consistent, Legal, HeldBy, CanEnliven, Ticking;
    if |cs| > 0 {
      var c, a := cs[0], After(sha, s, cs[0]);
      assert c in cs && forall d | d in cs[1..] :: d in cs;
      StrangerMovesQuietly(sha, s, c, id, key);
      CallKeepsPresent(sha, s, c, id, key);
      QuietTrace(sha, a, cs[1..], id, key);
    }
  }

  /** What others do to the record is a quiet, punctual life of it. */
  lemma QuietLife(sha: Hash, s: Store, cs: seq<Call>, t: Time, id: string, key: FenceKey)
    requires Meanwhile(sha, s, cs, t, id, key)
    ensures Present(Run(sha, s, cs), id, key)
    ensures var ls := TraceOf(sha, s, cs, id);
            && Run(sha, s, cs).records[id] == Play(s.records[id], ls)
            && Legal(s.records[id], ls) && Punctual(s.records[id], ls) && Quiet(ls)
    ensures Chronological(Run(sha, s, cs).records[id]) && Run(sha, s, cs).records[id].rev.updatedAt <= ReadingAfter(cs, t)
  {
    hide Run, Consistent, Play, Legal, Punctual, Chronological, Clocked, TraceOf, Quiet, Foreign, HeldBy, ReadingAfter;
    LaterLife(sha, s, cs, t, id);
    QuietTrace(sha, s, cs, id, key);
    ForeignKeepsPresent(sha, s, cs, id, key);
  }

  /** Whether a fence still authorizes depends only on what Prepare froze. */
  lemma SameFence(r: Record, ls: seq<Label>, i: Inspection, now: Time, window: Duration)
    ensures FenceCurrent(Play(r, ls), i, now, window) == FenceCurrent(r, i, now, window)
  {
    hide Play;
    VersionCountsSteps(r, ls);
  }

  // ---------------------------------------------------------------- AuthorizeChildCreate

  lemma AuthorizeAnswers(sha: Hash, s: Store, c: Call)
    requires c.AuthorizeChildCreate? && AuthorizeReply(sha, s, c).Ok?
    ensures c.permit.revocationID in s.records
    ensures var r := s.records[c.permit.revocationID];
            var l := Authorize(c.now, ChildTTLAt(r, c.now));
            Enabled(r, l) && AuthorizeReply(sha, s, c).value == AuthorizationFor(Next(r, l), c.now)
  {
    hide Decision, AuthorizeSteps, Next, Enabled, Play, ValidUUID, ValidOpaqueText, ValidActionFence, ChildTTLAt;
    GatedDecision(sha, s, c);
    var r := s.records[c.permit.revocationID];
    AuthorizeIsOneStep(sha, r, c.permit.token, c.fence, c.gate.inspection, c.now);
    PlaySteps(r, Authorize(c.now, ChildTTLAt(r, c.now)), Request(c.now));
  }

  /** An authorization the repository grants finds the record as Prepare left it, and the broker accepts it. */
  lemma AuthorizationIsAccepted(sha: Hash, s: Store, cs: seq<Call>, t: Time, c: Call, id: string, key: FenceKey,
                                q: DurableRequest, p: Profile, expiresAt: Time)
    requires Meanwhile(sha, s, cs, t, id, key)
    requires Newborn(s.records[id]) && PrepareFormat(s.records[id].rev.frozen) && Bound(s.records[id].rev.frozen, id, q, p, expiresAt)
    requires c.AuthorizeChildCreate? && c.permit.revocationID == id && ReadingAfter(cs, t) <= c.now
    requires AuthorizeReply(sha, Run(sha, s, cs), c).Ok?
    ensures id in Run(sha, s, cs).records && Run(sha, s, cs).records[id] == s.records[id]
    ensures ValidAuthorization(AuthorizeReply(sha, Run(sha, s, cs), c).value, s.records[id].rev, id, q, p, expiresAt)
  {
    QuietLife(sha, s, cs, t, id, key);
    hide Run, AuthorizeReply, Play, Legal, Punctual, Newborn, PrepareFormat, Bound, ValidAuthorization, Consistent, Chronological,
         Foreign, Clocked, ReadingAfter, Enabled, Next, ChildTTLAt, TraceOf, HeldBy;
    var r, ls := s.records[id], TraceOf(sha, s, cs, id);
    AuthorizeAnswers(sha, Run(sha, s, cs), c);
    AuthorizedOnlyWhenNew(r, ls, Authorize(c.now, ChildTTLAt(Play(r, ls), c.now)));
    AuthorizationInLife(r, ls, c.now, id, q, p, expiresAt);
    NothingHappens(r);
  }

  // ---------------------------------------------------------------- RecordAnchor

  /** The fence, as the action source showed it to this call, still authorizes at both readings. */
  predicate StillCurrent(r: Record, c: Call)
    requires c.RecordAnchor? || c.Activate?
  {
    && c.gate.Admitted?
    && FenceCurrent(r, c.gate.inspection, c.now, 0) && FenceCurrent(r, c.gate.inspection, c.finalNow, MinPostChildFenceWindow)
  }

  lemma AnchorAnswers(sha: Hash, s: Store, c: Call)
    requires c.RecordAnchor? && OnOneRecord(c) && RevocationReply(sha, s, c).Ok?
    ensures c.id in s.records && c.gate.Admitted?
    ensures var r := s.records[c.id];
            var steps := AnchorWhen(r, StillCurrent(r, c), c.protector, c.finalNow);
            steps.Ok? && RevocationReply(sha, s, c).value == Play(r, steps.value).rev
  {
    hide Decision, AnchorWhen, Play, ValidUUID, ValidActionFence, FenceMatches, ScopeMatches, FenceCurrent;
    GatedDecision(sha, s, c);
  }

  /**
   An anchor that succeeds finds the record as the authorization left it, and the broker accepts the reply exactly if the
   fence still authorized when the call began and, with a margin, when it ended.
   */
  lemma AnchorIsAccepted(sha: Hash, s: Store, cs: seq<Call>, t: Time, c: Call, id: string, key: FenceKey,
                         q: DurableRequest, p: Profile, expiresAt: Time)
    requires Meanwhile(sha, s, cs, t, id, key) && Bound(s.records[id].rev.frozen, id, q, p, expiresAt)
    requires s.records[id].rev.status == Prepared && s.records[id].childAuthorizedAt != Zero
    requires c.RecordAnchor? && OnOneRecord(c) && c.id == id && ReadingAfter(cs, t) <= c.now <= c.finalNow
    requires RevocationReply(sha, Run(sha, s, cs), c).Ok?
    ensures id in Run(sha, s, cs).records && Run(sha, s, cs).records[id] == s.records[id]
    ensures ValidNext(RevocationReply(sha, Run(sha, s, cs), c).value, s.records[id].rev, id, q, p, expiresAt, Anchored)
            <==> StillCurrent(s.records[id], c)
  {
    QuietLife(sha, s, cs, t, id, key);
    ClaimEpochBounded(s, id);
    hide *;
    var r, ls := s.records[id], TraceOf(sha, s, cs, id);
    AnchorAnswers(sha, Run(sha, s, cs), c);
    AnchorInLife(r, ls, StillCurrent(Play(r, ls), c), c.protector, c.finalNow, id, q, p, expiresAt);
    NothingHappens(r);
  }

  // ---------------------------------------------------------------- Activate

  lemma ActivateAnswers(sha: Hash, s: Store, c: Call)
    requires c.Activate? && OnOneRecord(c) && RevocationReply(sha, s, c).Ok?
    ensures c.id in s.records && c.gate.Admitted?
    ensures var r, i := s.records[c.id], c.gate.inspection;
            var steps := ActivateWhen(r, FenceCurrent(r, i, c.now, 0), FenceCurrent(r, i, c.finalNow, MinPostChildFenceWindow), c.now, c.finalNow);
            steps.Ok? && RevocationReply(sha, s, c).value == Play(r, steps.value).rev
  {
    hide Decision, ActivateWhen, Play, ValidUUID, ValidActionFence, FenceMatches, ScopeMatches, FenceCurrent;
    GatedDecision(sha, s, c);
  }

  lemma UntouchedExactly(r: Record, ls: seq<Label>)
    ensures Play(r, ls) == r <==> ls == []
  {
    hide Play;
    NothingHappens(r);
    VersionCountsSteps(r, ls);
  }

  /**
   The broker accepts the reply of an activation exactly if nobody has touched the record since the anchor and the fence
   still authorized when the call began and, with a margin, when it ended.
   */
  lemma ActivationIsAccepted(sha: Hash, s: Store, cs: seq<Call>, t: Time, c: Call, id: string, key: FenceKey,
                             q: DurableRequest, p: Profile, expiresAt: Time)
    requires Meanwhile(sha, s, cs, t, id, key) && Bound(s.records[id].rev.frozen, id, q, p, expiresAt)
    requires s.records[id].rev.status == Anchored
    requires c.Activate? && OnOneRecord(c) && c.id == id && ReadingAfter(cs, t) <= c.now <= c.finalNow
    requires RevocationReply(sha, Run(sha, s, cs), c).Ok?
    ensures id in Run(sha, s, cs).records
    ensures ValidNext(RevocationReply(sha, Run(sha, s, cs), c).value, s.records[id].rev, id, q, p, expiresAt, Active)
            <==> Run(sha, s, cs).records[id] == s.records[id] && StillCurrent(s.records[id], c)
  {
    QuietLife(sha, s, cs, t, id, key);
    ClaimEpochBounded(s, id);
    var r, ls := s.records[id], TraceOf(sha, s, cs, id);
    ActivateAnswers(sha, Run(sha, s, cs), c);
    var i := c.gate.inspection;
    SameFence(r, ls, i, c.now, 0);
    SameFence(r, ls, i, c.finalNow, MinPostChildFenceWindow);
    UntouchedExactly(r, ls);
    CurrentIs(r, c);
    hide *;
    ActivationInLife(r, ls, FenceCurrent(r, i, c.now, 0), FenceCurrent(r, i, c.finalNow, MinPostChildFenceWindow),
                     c.now, c.finalNow, id, q, p, expiresAt);
  }

  lemma CurrentIs(r: Record, c: Call)
    requires c.Activate? && c.gate.Admitted?
    ensures StillCurrent(r, c) <==>
              FenceCurrent(r, c.gate.inspection, c.now, 0) && FenceCurrent(r, c.gate.inspection, c.finalNow, MinPostChildFenceWindow)
  {
    hide FenceCurrent;
  }

  // ---------------------------------------------------------------- RecordNoCredential

  /** Nobody in the run holds the permit whose digest is given. */
  ghost predicate Permitless(sha: Hash, digest: string, cs: seq<Call>, id: string) {
    forall c | c in cs :: c.AuthorizeChildCreate? && c.permit.revocationID == id ==> sha(c.permit.token) != digest
  }

  lemma WithoutPermit(sha: Hash, r: Record, token: string, fence: ActionFence, i: Inspection, now: Time)
    requires r.permitSHA256 != sha(token)
    ensures AuthorizeSteps(sha, r, token, fence, i, now).Err?
  {
    hide FenceMatches, ScopeMatches, FenceCurrent;
  }

  lemma PermitlessCall(sha: Hash, s: Store, c: Call, id: string)
    requires id in s.records
    requires c.AuthorizeChildCreate? && c.permit.revocationID == id ==> sha(c.permit.token) != s.records[id].permitSHA256
    ensures forall l | l in Moves(sha, s, c, id) :: !isAuthorize(l)
  {
    hide Moves, Decision, AuthorizeSteps, ValidUUID, ValidActionFence, ValidOpaqueText;
    MovesOwn(sha, s, c, id);
    if c.AuthorizeChildCreate? {
      GatedDecision(sha, s, c);
      MovesOfOne(sha, s, c, id);
      if c.permit.revocationID == id && c.gate.Admitted? {
        WithoutPermit(sha, s.records[id], c.permit.token, c.fence, c.gate.inspection, c.now);
      }
    }
  }

  lemma {:induction false} PermitlessTrace(sha: Hash, s: Store, cs: seq<Call>, id: string)
    requires id in s.records && Permitless(sha, s.records[id].permitSHA256, cs, id)
    ensures forall l | l in TraceOf(sha, s, cs, id) :: !isAuthorize(l)
    decreases |cs|
  {
    hide After, Moves, Play, isAuthorize;
    if |cs| > 0 {
      var c := cs[0];
      assert c in cs && forall d | d in cs[1..] :: d in cs;
      PermitlessCall(sha, s, c, id);
      RecordAfter(sha, s, c, id);
      VersionCountsSteps(s.records[id], Moves(sha, s, c, id));
      PermitlessTrace(sha, After(sha, s, c), cs[1..], id);
    }
  }

  lemma UnauthorizedLife(r: Record, ls: seq<Label>)
    requires WellFormed(r) && Legal(r, ls) && r.childAuthorizedAt == Zero && forall l | l in ls :: !isAuthorize(l)
    ensures Play(r, ls).childAuthorizedAt == Zero
  {
    hide WellFormed, Legal, Play, isAuthorize, Count;
    OneChildPerRecord(r, ls);
    CountAtMost(isAuthorize, ls);
  }

  lemma NoCredentialAnswers(sha: Hash, s: Store, c: Call)
    requires c.RecordNoCredential? && OnOneRecord(c) && RevocationReply(sha, s, c).Ok?
    ensures c.id in s.records
    ensures var steps := NoCredentialWhen(s.records[c.id], c.now);
            steps.Ok? && RevocationReply(sha, s, c).value == Play(s.records[c.id], steps.value).rev
  {
    hide Decision, NoCredentialWhen, Play, ActionLookup;
    LookupDecision(sha, s, c);
  }

  /**
   As long as the permit has not left its holder, the broker accepts every reply to RecordNoCredential that is no error,
   even if a sweep has closed the record before.
   */
  lemma NoCredentialIsAccepted(sha: Hash, s: Store, cs: seq<Call>, t: Time, c: Call, id: string,
                               q: DurableRequest, p: Profile, expiresAt: Time)
    requires Later(s, cs, t, id) && Newborn(s.records[id]) && Bound(s.records[id].rev.frozen, id, q, p, expiresAt)
    requires Permitless(sha, s.records[id].permitSHA256, cs, id)
    requires c.RecordNoCredential? && OnOneRecord(c) && c.id == id && ReadingAfter(cs, t) <= c.now
    requires RevocationReply(sha, Run(sha, s, cs), c).Ok?
    ensures ValidNoCredential(RevocationReply(sha, Run(sha, s, cs), c).value, s.records[id].rev, id, q, p, expiresAt)
  {
    LaterLife(sha, s, cs, t, id);
    PermitlessTrace(sha, s, cs, id);
    hide *;
    var r, ls := s.records[id], TraceOf(sha, s, cs, id);
    NewbornShape(r);
    UnauthorizedLife(r, ls);
    NoCredentialAnswers(sha, Run(sha, s, cs), c);
    NoCredentialInLife(r, ls, c.now, id, q, p, expiresAt);
  }

  // ---------------------------------------------------------------- RequestRevocation

  lemma IntentAnswers(sha: Hash, s: Store, id: string, now: Time, c: Call)
    requires Consistent(s) && id in s.records && RequestSteps(s.records[id], now).Ok? && c == Intent(id, now)
    ensures OnOneRecord(c)
    ensures RevocationReply(sha, s, c) == Ok(Play(s.records[id], RequestSteps(s.records[id], now).value).rev)
  {
    hide *;
    IdentifierOfRecord(s, id);
    IntentIs(id, now);
    OperatorDecision(sha, s, c);
    CommittedReply(sha, s, c, RequestSteps(s.records[id], now).value);
  }

  lemma IntentIs(id: string, now: Time)
    ensures var c := Intent(id, now); c.RequestRevocation? && c.fence == NoFence && c.id == id && c.now == now
  {
  }

  lemma CommittedReply(sha: Hash, s: Store, c: Call, ls: seq<Label>)
    requires OnOneRecord(c) && Decision(sha, s, c) == Ok(ls) && Target(c) in s.records && Afterwards(c) == None
    ensures RevocationReply(sha, s, c) == Ok(Play(s.records[Target(c)], ls).rev)
  {
    hide Decision, Play, Target, Afterwards;
  }

  lemma LaterStarts(s: Store, cs: seq<Call>, t: Time, id: string)
    requires Later(s, cs, t, id)
    ensures Consistent(s) && id in s.records && WellFormed(s.records[id]) && Chronological(s.records[id])
    ensures s.records[id].rev.frozen.id == id
  {
    hide Consistent, Chronological, Clocked, WellFormed;
    ClaimEpochBounded(s, id);
    IdentifierOfRecord(s, id);
  }

  /** Whatever has become of an active record, the broker's request succeeds and the broker accepts the reply. */
  lemma RequestedIsAccepted(sha: Hash, s: Store, cs: seq<Call>, t: Time, id: string, now: Time, c: Call)
    requires Later(s, cs, t, id) && s.records[id].rev.status == Active && ReadingAfter(cs, t) <= now && c == Intent(id, now)
    ensures OnOneRecord(c) && RevocationReply(sha, Run(sha, s, cs), c).Ok?
    ensures ValidRequested(RevocationReply(sha, Run(sha, s, cs), c).value, id, s.records[id].rev)
  {
    hide *;
    LaterLife(sha, s, cs, t, id);
    LaterStarts(s, cs, t, id);
    var r, ls := s.records[id], TraceOf(sha, s, cs, id);
    RequestedInLife(r, ls, now);
    IntentAnswers(sha, Run(sha, s, cs), id, now, c);
  }

  // ---------------------------------------------------------------- others that keep away from the record

  /** A call that does not concern the record before it is to be revoked. */
  predicate Aloof(c: Call, id: string, deadline: Time) {
    || c.Prepare? || c.ClaimRevocations? || c.RecoverExhausted?
    || (c.RecoverPrepared? && c.now < deadline + PreparedRecoveryGrace)
    || (OnOneRecord(c) && Target(c) != id)
  }

  lemma NotEligible(r: Record, c: Call, id: string)
    requires Sweep(c) && Aloof(c, id, r.rev.frozen.credentialExpiresAt) && (r.rev.status == Prepared || r.rev.status == Anchored)
    ensures !Eligible(r, c)
  {
    hide Exhausted;
  }

  lemma IneligibleMovesNothing(sha: Hash, s: Store, c: Call, id: string)
    requires id in s.records && Sweep(c) && !Eligible(s.records[id], c)
    ensures SweepMoves(sha, s, c, id) == []
  {
    hide Chosen, SweepSteps, Eligible, OrderOf, ClaimRefusal;
  }

  lemma AloofMovesNothing(sha: Hash, s: Store, c: Call, id: string)
    requires id in s.records && Aloof(c, id, s.records[id].rev.frozen.credentialExpiresAt)
    requires s.records[id].rev.status == Prepared || s.records[id].rev.status == Anchored
    ensures Moves(sha, s, c, id) == []
  {
    hide Decision, SweepMoves, Eligible, Target;
    if Sweep(c) {
      NotEligible(s.records[id], c, id);
      IneligibleMovesNothing(sha, s, c, id);
      SweepHasMoves(sha, s, c, id);
    } else if !c.Prepare? {
      OtherRecordsStill(sha, s, c, id);
    }
  }

  lemma {:induction false} AloofRun(sha: Hash, s: Store, cs: seq<Call>, id: string)
    requires id in s.records && forall c | c in cs :: Aloof(c, id, s.records[id].rev.frozen.credentialExpiresAt)
    requires s.records[id].rev.status == Prepared || s.records[id].rev.status == Anchored
    ensures id in Run(sha, s, cs).records && Run(sha, s, cs).records[id] == s.records[id]
    decreases |cs|
  {
    hide After, Moves, Aloof, Play;
    if |cs| > 0 {
      assert cs[0] in cs && forall c | c in cs[1..] :: c in cs;
      AloofMovesNothing(sha, s, cs[0], id);
      RecordAfter(sha, s, cs[0], id);
      NothingHappens(s.records[id]);
      AloofRun(sha, After(sha, s, cs[0]), cs[1..], id);
    }
  }

  // ---------------------------------------------------------------- the repository does reply

  /** The action source let the call through and shows the action that the record was prepared for. */
  predicate Shows(r: Record, gate: Gate) {
    gate.Admitted? && gate.afterwards.None? && ScopeMatches(r, gate.inspection.metadata)
  }

  /** The permit is the record's, the fence its own and current for long enough, and a child still has time to live. */
  predicate MayAuthorize(sha: Hash, r: Record, c: Call)
    requires c.AuthorizeChildCreate?
  {
    && ValidOpaqueText(c.permit.token, 4096) && ValidActionFence(c.fence) && Shown(sha, c.fence) == HeldBy(r)
    && r.permitSHA256 == sha(c.permit.token) && Shows(r, c.gate) && FenceCurrent(r, c.gate.inspection, c.now, 0)
    && var m := c.gate.inspection.metadata;
    && r.rev.frozen.credentialExpiresAt <= m.authorizationExpiresAt
    && c.now + ChildCreateExpiryReserve + MinPostChildFenceWindow <= m.leaseExpiresAt
    && c.now + ChildCreateExpiryReserve + MinPostChildFenceWindow <= m.authorizationExpiresAt
    && ChildTTLAt(r, c.now) >= MinChildCreateTTL
  }

  lemma AuthorizeStepsGranted(sha: Hash, r: Record, c: Call)
    requires c.AuthorizeChildCreate? && Newborn(r) && MayAuthorize(sha, r, c)
    ensures AuthorizeSteps(sha, r, c.permit.token, c.fence, c.gate.inspection, c.now) == Ok([Authorize(c.now, ChildTTLAt(r, c.now))])
    ensures Enabled(r, Authorize(c.now, ChildTTLAt(r, c.now)))
  {
    NewbornShape(r);
    MatchesExactly(sha, r, c.fence);
    hide FenceCurrent, ScopeMatches, ChildTTLAt, ValidOpaqueText, ValidActionFence, Newborn, FenceMatches, Shown, HeldBy;
  }

  /** On a record as Prepare left it, a call with permit and fence is granted, and the broker accepts the grant. */
  lemma AuthorizationIsGranted(sha: Hash, s: Store, c: Call, id: string, q: DurableRequest, p: Profile, expiresAt: Time)
    requires Consistent(s) && id in s.records && c.AuthorizeChildCreate? && c.permit.revocationID == id
    requires var r := s.records[id];
             && Newborn(r) && Chronological(r) && PrepareFormat(r.rev.frozen) && Bound(r.rev.frozen, id, q, p, expiresAt)
             && r.rev.updatedAt <= c.now && MayAuthorize(sha, r, c)
    ensures var r1 := Next(s.records[id], Authorize(c.now, ChildTTLAt(s.records[id], c.now)));
            && id in After(sha, s, c).records && After(sha, s, c).records[id] == r1
            && AuthorizeReply(sha, s, c) == Ok(AuthorizationFor(r1, c.now))
            && ValidAuthorization(AuthorizationFor(r1, c.now), s.records[id].rev, id, q, p, expiresAt)
  {
    var r := s.records[id];
    IdentifierOfRecord(s, id);
    AuthorizeStepsGranted(sha, r, c);
    NewAuthorization(r, c.now, id, q, p, expiresAt);
    GatedDecision(sha, s, c);
    GateIsOpen(sha, r, c);
    hide *;
    OneStepCommits(sha, s, c, Authorize(c.now, ChildTTLAt(r, c.now)));
    AuthorizeReplyOf(sha, s, c);
  }

  lemma GateIsOpen(sha: Hash, r: Record, c: Call)
    requires c.AuthorizeChildCreate? && MayAuthorize(sha, r, c)
    ensures c.gate.Admitted? && c.gate.afterwards.None? && ValidOpaqueText(c.permit.token, 4096) && ValidActionFence(c.fence)
  {
    hide FenceCurrent, ScopeMatches, ChildTTLAt, ValidOpaqueText, ValidActionFence;
  }

  lemma OneStepCommits(sha: Hash, s: Store, c: Call, l: Label)
    requires OnOneRecord(c) && Decision(sha, s, c) == Ok([l]) && Afterwards(c) == None
    ensures Target(c) in s.records && Target(c) in After(sha, s, c).records
    ensures After(sha, s, c).records[Target(c)] == Next(s.records[Target(c)], l)
    ensures AnsweredRecord(sha, s, c) == Ok(Next(s.records[Target(c)], l))
    ensures RevocationReply(sha, s, c) == Ok(Next(s.records[Target(c)], l).rev)
  {
    hide After, Decision, Play, Next, Target, Afterwards, OnOneRecord;
    DecidedOnFound(sha, s, c);
    var r := s.records[Target(c)];
    PlaySteps(r, l, l);
    AfterCommit(sha, s, c, Next(r, l));
  }

  lemma AuthorizeReplyOf(sha: Hash, s: Store, c: Call)
    requires c.AuthorizeChildCreate? && AnsweredRecord(sha, s, c).Ok?
    ensures AuthorizeReply(sha, s, c) == Ok(AuthorizationFor(AnsweredRecord(sha, s, c).value, c.now))
  {
    hide AnsweredRecord;
  }

  /** The fence is the record's own and still authorizes at both readings. */
  predicate MayProceed(sha: Hash, r: Record, c: Call)
    requires c.RecordAnchor? || c.Activate?
  {
    ValidActionFence(c.fence) && Shown(sha, c.fence) == HeldBy(r) && Shows(r, c.gate) && StillCurrent(r, c)
  }

  lemma AnchorStepsGranted(sha: Hash, r: Record, c: Call)
    requires c.RecordAnchor? && r.rev.status == Prepared && r.childAuthorizedAt != Zero && MayProceed(sha, r, c) && c.protector.protect.Some?
    ensures AnchorSteps(sha, r, c.fence, c.gate.inspection, c.protector, c.now, c.finalNow) == Ok([Anchor(c.finalNow, c.protector.protect.value)])
    ensures AnchorWhen(r, true, c.protector, c.finalNow) == Ok([Anchor(c.finalNow, c.protector.protect.value)])
    ensures c.gate.Admitted? && c.gate.afterwards.None? && ValidActionFence(c.fence)
  {
    hide FenceCurrent, ScopeMatches, ValidActionFence;
  }

  /** On an authorized record, an anchor under the current fence succeeds and the broker accepts the reply. */
  lemma AnchorIsGranted(sha: Hash, s: Store, c: Call, id: string, q: DurableRequest, p: Profile, expiresAt: Time)
    requires Consistent(s) && id in s.records && c.RecordAnchor? && OnOneRecord(c) && c.id == id
    requires var r := s.records[id];
             && Chronological(r) && Bound(r.rev.frozen, id, q, p, expiresAt) && r.rev.status == Prepared && r.childAuthorizedAt != Zero
             && r.rev.updatedAt <= c.finalNow && c.accessorPresent && c.protector.protect.Some? && MayProceed(sha, r, c)
    ensures var r2 := Next(s.records[id], Anchor(c.finalNow, c.protector.protect.value));
            && id in After(sha, s, c).records && After(sha, s, c).records[id] == r2 && RevocationReply(sha, s, c) == Ok(r2.rev)
            && ValidNext(r2.rev, s.records[id].rev, id, q, p, expiresAt, Anchored)
  {
    var r := s.records[id];
    IdentifierOfRecord(s, id);
    ClaimEpochBounded(s, id);
    AnchorStepsGranted(sha, r, c);
    GatedDecision(sha, s, c);
    hide *;
    var l := Anchor(c.finalNow, c.protector.protect.value);
    OneStepCommits(sha, s, c, l);
    AnchorAnswer(r, true, c.protector, c.finalNow, id, q, p, expiresAt);
    PlaySteps(r, l, l);
  }

  lemma ActivateStepsGranted(sha: Hash, r: Record, c: Call)
    requires c.Activate? && r.rev.status == Anchored && MayProceed(sha, r, c)
    ensures ActivateSteps(sha, r, c.fence, c.gate.inspection, c.now, c.finalNow) == Ok([MarkActive(c.now)])
    ensures ActivateWhen(r, true, true, c.now, c.finalNow) == Ok([MarkActive(c.now)])
    ensures c.gate.Admitted? && c.gate.afterwards.None? && ValidActionFence(c.fence)
  {
    hide FenceCurrent, ScopeMatches, ValidActionFence;
  }

  /** On an anchored record, an activation under the current fence succeeds and the broker accepts the reply. */
  lemma ActivationIsGranted(sha: Hash, s: Store, c: Call, id: string, q: DurableRequest, p: Profile, expiresAt: Time)
    requires Consistent(s) && id in s.records && c.Activate? && OnOneRecord(c) && c.id == id
    requires var r := s.records[id];
             && Chronological(r) && Bound(r.rev.frozen, id, q, p, expiresAt) && r.rev.status == Anchored
             && r.rev.updatedAt <= c.now <= c.finalNow && MayProceed(sha, r, c)
    ensures var r3 := Next(s.records[id], MarkActive(c.now));
            && id in After(sha, s, c).records && After(sha, s, c).records[id] == r3 && RevocationReply(sha, s, c) == Ok(r3.rev)
            && ValidNext(r3.rev, s.records[id].rev, id, q, p, expiresAt, Active)
  {
    var r := s.records[id];
    IdentifierOfRecord(s, id);
    ClaimEpochBounded(s, id);
    ActivateStepsGranted(sha, r, c);
    GatedDecision(sha, s, c);
    hide *;
    var l := MarkActive(c.now);
    OneStepCommits(sha, s, c, l);
    ActivateAnswer(r, true, true, c.now, c.finalNow, id, q, p, expiresAt);
    PlaySteps(r, l, l);
  }
}
