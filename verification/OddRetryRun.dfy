/**
 One concrete run of six calls, all at the same whole second, that ends with a retry one nanosecond past the minimum
 delay. Every call succeeds, and the control plane rejects the record.
 */
module OddRetryRuns {
  import opened Options
  import opened Text
  import opened Revocations
  import opened Lifecycle
  import opened LifecycleTraces
  import opened Management
  import opened Ordering
  import opened RepositoryModel
  import opened RepositoryRuns
  import opened RepositorySafety
  import opened RepositoryDecisions
  import opened ManagementRuns

  const Id := "11111111-1111-4111-8111-111111111111"
  const Start: Time := 1_000_000 * Second
  const Fence := ActionFence("a", "w", "s", 1)
  const Action := Metadata("a", Scope("t", Id, Id, "k", false, "y", "c", "p", "r", 600), "w", 1, Running,
                           Start + 60 * Minute, Start + 60 * Minute, Zero, true, WritePool, 1, 1, true)

  function OpenGate(sha: Hash): Gate {
    Admitted(Inspection(Action, sha("s")), None)
  }

  const Preparing := Prepare(PrepareRequest(Id, Fence, "i", "v", Start + 10 * Minute), Start, Some(Action), Start, Some(Action), Some("q"))

  const Reference := ProtectedReference("x", "", "k")

  function Authorizing(sha: Hash): Call {
    AuthorizeChildCreate(Permit(Id, "q"), Fence, OpenGate(sha), Start)
  }

  function Anchoring(sha: Hash): Call {
    RecordAnchor(Id, Fence, true, OpenGate(sha), Protector(Some(Reference), Some(true)), Start, Start)
  }

  const Requesting := RequestRevocation(Id, NoFence, None, Start)
  const Claiming := ClaimRevocations("w", 1, MaxRevocationClaimLease, (i: nat) => Some("c"), (id: string) => false, Start)
  const Retrying := RetryRevocation(ClaimFence(Id, "w", "c", 1), MinRevocationRetryDelay + 1, Timeout, "d", Start)

  function Calls(sha: Hash): seq<Call> {
    [Preparing, Authorizing(sha), Anchoring(sha), Requesting, Claiming, Retrying]
  }

  // ---------------------------------------------------------------- the record after each call

  function R0(sha: Hash): Record { NewRecord(sha, Preparing, Action, "q") }
  function R1(sha: Hash): Record { Next(R0(sha), Authorize(Start, ChildTTLAt(R0(sha), Start))) }
  function R2(sha: Hash): Record { Next(R1(sha), Anchor(Start, Reference)) }
  function R3(sha: Hash): Record { Next(R2(sha), Request(Start)) }
  function R4(sha: Hash): Record { Next(R3(sha), Claim(Start, "w", MaxRevocationClaimLease, sha("c"))) }
  function R5(sha: Hash): Record {
    Next(R4(sha), Retry(Start, ClaimKey("w", sha("c"), 1), MinRevocationRetryDelay + 1, Timeout, sha("d")))
  }

  function Only(r: Record): Store {
    Store(map[Id := r], map[ActionEpochKey("a", 1) := Id])
  }

  lemma OneLetter(c: char)
    requires AlphaNumeric(c)
    ensures ValidIdentifier([c], 256) && ValidIdentifier([c], 512)
    ensures ValidOpaqueText([c], 256) && ValidOpaqueText([c], 2048) && ValidOpaqueText([c], 4096)
  {
    IdentifierIsOpaqueText([c], 256, 256);
  }

  lemma IdIsUUID()
    ensures ValidUUID(Id)
  {
    assert LowerHex('1') && LowerHex('4') && LowerHex('8');
  }

  lemma UUIDIsIdentifier(v: string)
    requires ValidUUID(v)
    ensures ValidIdentifier(v, 256)
  {
  }

  lemma Formats()
    ensures ValidUUID(Id) && ValidActionFence(Fence) && ValidOpaqueText("q", 4096) && ValidOpaqueText("c", 4096)
    ensures ValidOpaqueText("i", 256) && ValidIdentifier("v", 256) && ValidIdentifier("w", 256)
    ensures Resolves(Fence, Some(Action), Start) && ValidIdentifier("c", 256)
  {
    IdIsUUID();
    UUIDIsIdentifier(Id);
    forall c | AlphaNumeric(c)
      ensures ValidIdentifier([c], 256) && ValidIdentifier([c], 512)
      ensures ValidOpaqueText([c], 256) && ValidOpaqueText([c], 2048) && ValidOpaqueText([c], 4096)
    {
      OneLetter(c);
    }
    hide ValidUUID, ValidIdentifier, ValidOpaqueText;
    assert AlphaNumeric('a') && AlphaNumeric('w') && AlphaNumeric('s') && AlphaNumeric('q') && AlphaNumeric('c');
    assert AlphaNumeric('i') && AlphaNumeric('v') && AlphaNumeric('t') && AlphaNumeric('k') && AlphaNumeric('y');
    assert AlphaNumeric('p') && AlphaNumeric('r');
  }

  // ---------------------------------------------------------------- one call after the other

  lemma PrepareAdmits()
    ensures PrepareRefusal(Preparing).None?
  {
    Formats();
    hide ValidUUID, ValidActionFence, ValidOpaqueText, ValidIdentifier, Resolves;
  }

  lemma PrepareLeaves(sha: Hash)
    ensures After(sha, EmptyStore, Preparing) == Only(R0(sha))
  {
    Formats();
    PrepareAdmits();
    hide ValidUUID, ValidActionFence, ValidOpaqueText, ValidIdentifier, Resolves, PrepareRefusal, ActionEpochKey, NewRecord;
    StoreAfter(sha, EmptyStore, Preparing);
    CreatedExactly(sha, EmptyStore, Preparing);
  }

  predicate NewShape(sha: Hash, r: Record) {
    && r.rev.frozen == FrozenBy(Preparing, Action) && r.actionTokenSHA256 == sha("s") && r.permitSHA256 == sha("q")
    && r.rev.status == Prepared && r.childAuthorizedAt == Zero && r.protected.ciphertext == ""
  }

  lemma AuthorizeAllowed(sha: Hash, r: Record)
    requires NewShape(sha, r)
    ensures AuthorizeSteps(sha, r, "q", Fence, OpenGate(sha).inspection, Start) == Ok([Authorize(Start, ChildTTLAt(r, Start))])
  {
  }

  lemma AuthorizeDecided(sha: Hash, r: Record)
    requires NewShape(sha, r)
    ensures var c := Authorizing(sha);
            OnOneRecord(c) && Target(c) == Id && Decision(sha, Only(r), c) == Ok([Authorize(Start, ChildTTLAt(r, Start))])
  {
    Formats();
    AuthorizeAllowed(sha, r);
    hide ValidUUID, ValidActionFence, ValidOpaqueText, ValidIdentifier, Resolves, ActionEpochKey, Decision, AuthorizeSteps, NewShape;
    GatedDecision(sha, Only(r), Authorizing(sha));
  }

  lemma AuthorizeLeaves(sha: Hash)
    ensures After(sha, Only(R0(sha)), Authorizing(sha)) == Only(R1(sha))
  {
    NewShapeOf(sha);
    hide After, Decision, R0, Next, Only, NewShape, Authorizing, ChildTTLAt;
    AuthorizeDecided(sha, R0(sha));
    Leaves(sha, Authorizing(sha), R0(sha), Authorize(Start, ChildTTLAt(R0(sha), Start)));
  }

  lemma NewShapeOf(sha: Hash)
    ensures NewShape(sha, R0(sha))
  {
  }

  /** What the later calls look at. */
  predicate Shape(sha: Hash, r: Record) {
    && r.rev.frozen == FrozenBy(Preparing, Action) && r.actionTokenSHA256 == sha("s")
    && r.childAuthorizedAt == Start && r.rev.claimEpoch == 0 && r.rev.attempt == 0
  }

  lemma Shapes(sha: Hash)
    ensures Shape(sha, R1(sha)) && R1(sha).rev.status == Prepared
    ensures Shape(sha, R2(sha)) && R2(sha).rev.status == Anchored
    ensures Shape(sha, R3(sha)) && R3(sha).rev.status == RevocationPending && R3(sha).rev.availableAt == Start
    ensures R3(sha).cycleAttemptBase == 0 && R3(sha).cycleStartedAt == Start
  {
  }

  lemma AnchorAllowed(sha: Hash, r: Record)
    requires Shape(sha, r) && r.rev.status == Prepared
    ensures AnchorSteps(sha, r, Fence, OpenGate(sha).inspection, Protector(Some(Reference), Some(true)), Start, Start)
            == Ok([Anchor(Start, Reference)])
  {
  }

  lemma PlayOne(r: Record, l: Label)
    ensures Play(r, [l]) == Next(r, l)
  {
    PlaySteps(r, l, l);
  }

  lemma AnchorDecided(sha: Hash, r: Record)
    requires Shape(sha, r) && r.rev.status == Prepared
    ensures var c := Anchoring(sha); OnOneRecord(c) && Target(c) == Id && Decision(sha, Only(r), c) == Ok([Anchor(Start, Reference)])
  {
    Formats();
    AnchorAllowed(sha, r);
    hide ValidUUID, ValidActionFence, ValidOpaqueText, ValidIdentifier, Resolves, ActionEpochKey, Decision, AnchorSteps, Shape;
    GatedDecision(sha, Only(r), Anchoring(sha));
  }

  lemma AnchorLeaves(sha: Hash)
    ensures After(sha, Only(R1(sha)), Anchoring(sha)) == Only(R2(sha))
  {
    Shapes(sha);
    hide After, Decision, R1, Next, Only, Shape, Anchoring;
    AnchorDecided(sha, R1(sha));
    Leaves(sha, Anchoring(sha), R1(sha), Anchor(Start, Reference));
  }

  lemma OnlyUpdate(r: Record, e: Record)
    ensures Id in Only(r).records && Only(r).records[Id] == r
    ensures Only(r).records.Keys == {Id} && Only(r).records[Id := e] == Only(e).records && Only(r).epochs == Only(e).epochs
  {
    hide ActionEpochKey;
  }

  lemma Leaves(sha: Hash, c: Call, r: Record, l: Label)
    requires OnOneRecord(c) && Target(c) == Id && Decision(sha, Only(r), c) == Ok([l])
    ensures After(sha, Only(r), c) == Only(Next(r, l))
  {
    hide *;
    OnlyUpdate(r, Next(r, l));
    PlayOne(r, l);
    AfterCommit(sha, Only(r), c, Next(r, l));
  }

  lemma RequestDecided(sha: Hash, r: Record)
    requires r.rev.status == Anchored
    ensures OnOneRecord(Requesting) && Target(Requesting) == Id && Decision(sha, Only(r), Requesting) == Ok([Request(Start)])
  {
    IdIsUUID();
    hide ValidUUID, ActionEpochKey, Decision;
    OperatorDecision(sha, Only(r), Requesting);
  }

  lemma RequestLeaves(sha: Hash)
    ensures After(sha, Only(R2(sha)), Requesting) == Only(R3(sha))
  {
    Shapes(sha);
    hide Shape, After, Decision, R2, Next, Only;
    RequestDecided(sha, R2(sha));
    Leaves(sha, Requesting, R2(sha), Request(Start));
  }

  lemma ClaimEligible(s: Store, r: Record)
    requires s == Only(r) && Claimable(r, Start)
    ensures EligibleKeys(s, Claiming) == {OrderOf(Id, r, Claiming)}
  {
    hide Claimable, ActionEpochKey;
    assert Eligible(s.records[Id], Claiming);
    assert forall id | id in s.records :: id == Id;
    assert OrderOf(Id, s.records[Id], Claiming) in EligibleKeys(s, Claiming);
  }

  lemma ClaimChosen(s: Store, r: Record)
    requires s == Only(r) && Claimable(r, Start)
    ensures Chosen(s, Claiming) == [OrderOf(Id, r, Claiming)]
  {
    OneLetter('w');
    ClaimEligible(s, r);
    hide Claimable, Only, ValidIdentifier, EligibleKeys, OrderOf;
    var key := OrderOf(Id, r, Claiming);
    LeastUnique(key, {key});
  }

  lemma ClaimCommits(s: Store, key: SortKey)
    requires Named(s, [key]) && s.records[key.id].rev.claimEpoch == 0
    ensures ClaimRefusal(s, Claiming, [key], 0).None?
  {
    OneLetter('c');
    hide ValidOpaqueText;
  }

  lemma ClaimMove(sha: Hash, s: Store, r: Record)
    requires s == Only(r) && Claimable(r, Start) && r.rev.claimEpoch == 0 && Id in s.records
    ensures Moves(sha, s, Claiming, Id) == [Claim(Start, "w", MaxRevocationClaimLease, sha("c"))]
  {
    hide Claimable, Only, Chosen, ClaimRefusal, OrderOf, Decision, Moves;
    var key := OrderOf(Id, r, Claiming);
    OnlyUpdate(r, r);
    ClaimChosen(s, r);
    ClaimCommits(s, key);
    assert Position([key], Id) == Some(0);
    ClaimMoves(sha, s, Claiming, Id);
  }

  lemma ClaimLeaves(sha: Hash)
    ensures After(sha, Only(R3(sha)), Claiming) == Only(R4(sha))
  {
    hide *;
    var l := Claim(Start, "w", MaxRevocationClaimLease, sha("c"));
    Shapes(sha);
    ClaimedNext(sha);
    PendingIsClaimable(sha, R3(sha));
    OnlyUpdate(R3(sha), R4(sha));
    ClaimMove(sha, Only(R3(sha)), R3(sha));
    PlayOne(R3(sha), l);
    ClaimSpreads(sha, Only(R3(sha)), R4(sha));
  }

  lemma ClaimedNext(sha: Hash)
    ensures R4(sha) == Next(R3(sha), Claim(Start, "w", MaxRevocationClaimLease, sha("c")))
  {
    hide Next;
  }

  lemma ClaimSpreads(sha: Hash, s: Store, e: Record)
    requires s.records.Keys == {Id} && e == Play(s.records[Id], Moves(sha, s, Claiming, Id))
    ensures After(sha, s, Claiming) == Store(s.records[Id := e], s.epochs)
  {
    hide After, Moves, Play;
    AfterPointwise(sha, s, Claiming, s.records[Id := e]);
  }

  lemma PendingIsClaimable(sha: Hash, r: Record)
    requires Shape(sha, r) && r.rev.status == RevocationPending && r.rev.availableAt == Start
    requires r.cycleAttemptBase == 0 && r.cycleStartedAt == Start
    ensures Claimable(r, Start) && r.rev.claimEpoch == 0
  {
  }

  lemma RetryAllowed(sha: Hash)
    ensures RetrySteps(R4(sha), ClaimKey("w", sha("c"), 1), MinRevocationRetryDelay + 1, Timeout, sha("d"), Start)
            == Ok([Retry(Start, ClaimKey("w", sha("c"), 1), MinRevocationRetryDelay + 1, Timeout, sha("d"))])
  {
    Shapes(sha);
    hide R3;
  }

  lemma RetryDecided(sha: Hash, r: Record)
    ensures OnOneRecord(Retrying) && Target(Retrying) == Id
    ensures Decision(sha, Only(r), Retrying)
            == RetrySteps(r, ClaimKey("w", sha("c"), 1), MinRevocationRetryDelay + 1, Timeout, sha("d"), Start)
  {
    IdIsUUID();
    OneLetter('w');
    OneLetter('c');
    hide ValidUUID, ValidIdentifier, ValidOpaqueText, ActionEpochKey, Decision, RetrySteps;
    ClaimDecision(sha, Only(r), Retrying);
  }

  lemma RetryLeaves(sha: Hash)
    ensures After(sha, Only(R4(sha)), Retrying) == Only(R5(sha))
  {
    RetryAllowed(sha);
    hide After, Decision, R4, Next, RetrySteps, Only;
    RetryDecided(sha, R4(sha));
    Leaves(sha, Retrying, R4(sha), Retry(Start, ClaimKey("w", sha("c"), 1), MinRevocationRetryDelay + 1, Timeout, sha("d")));
  }

  lemma Unfold(sha: Hash, s: Store, c: Call, cs: seq<Call>)
    ensures Run(sha, s, [c] + cs) == Run(sha, After(sha, s, c), cs)
  {
    hide After;
    assert ([c] + cs)[1..] == cs;
  }

  lemma RunLeaves(sha: Hash)
    ensures Run(sha, EmptyStore, Calls(sha)) == Only(R5(sha))
  {
    hide After, Only, R0, R1, R2, R3, R4, R5, Run;
    PrepareLeaves(sha);
    AuthorizeLeaves(sha);
    AnchorLeaves(sha);
    RequestLeaves(sha);
    ClaimLeaves(sha);
    RetryLeaves(sha);
    var cs := Calls(sha);
    Unfold(sha, EmptyStore, Preparing, cs[1..]);
    Unfold(sha, Only(R0(sha)), Authorizing(sha), cs[2..]);
    Unfold(sha, Only(R1(sha)), Anchoring(sha), cs[3..]);
    Unfold(sha, Only(R2(sha)), Requesting, cs[4..]);
    Unfold(sha, Only(R3(sha)), Claiming, cs[5..]);
    Unfold(sha, Only(R4(sha)), Retrying, []);
    assert cs == [Preparing] + cs[1..] && cs[1..] == [Authorizing(sha)] + cs[2..] && cs[2..] == [Anchoring(sha)] + cs[3..];
    assert cs[3..] == [Requesting] + cs[4..] && cs[4..] == [Claiming] + cs[5..] && cs[5..] == [Retrying] + [];
    RunNothing(sha, Only(R5(sha)));
  }

  /**
   Six successful calls on a microsecond clock, with an action in management format, leave a record that the control
   plane rejects; the delay of the last call is the one the code accepts and the contract does not.
   */
  lemma OddRetryDelayIsRejected(sha: Hash)
    ensures Clocked(Calls(sha), Start) && WholeReadings(Calls(sha))
    ensures Id in Run(sha, EmptyStore, Calls(sha)).records
    ensures var r := Run(sha, EmptyStore, Calls(sha)).records[Id];
            ManagementFormat(r.rev.frozen) && !ValidManagementRecord(Project(r))
  {
    RunLeaves(sha);
    OneInstant(sha);
    Rejected(sha);
    hide Run, R5, Calls, ManagementFormat, ValidManagementRecord, Clocked, WholeReadings;
  }

  lemma Rejected(sha: Hash)
    ensures ManagementFormat(R5(sha).rev.frozen) && !ValidManagementRecord(Project(R5(sha)))
  {
    Formats();
    FinalShape(sha);
    hide R5, ValidUUID, ValidIdentifier;
    assert (Start + MinRevocationRetryDelay + 1) % Microsecond != 0;
  }

  lemma FinalShape(sha: Hash)
    ensures R5(sha).rev.availableAt == Start + MinRevocationRetryDelay + 1 && R5(sha).rev.frozen.scope == Action.scope
  {
    hide R3, Next, Shape;
    Shapes(sha);
    PendingScope(sha, R3(sha));
    ClaimKeepsFrozen(R3(sha), Claim(Start, "w", MaxRevocationClaimLease, sha("c")));
    RetrySetsWait(R4(sha), Retry(Start, ClaimKey("w", sha("c"), 1), MinRevocationRetryDelay + 1, Timeout, sha("d")));
  }

  lemma PendingScope(sha: Hash, r: Record)
    requires Shape(sha, r)
    ensures r.rev.frozen.scope == Action.scope
  {
  }

  lemma ClaimKeepsFrozen(r: Record, l: Label)
    requires l.Claim?
    ensures Next(r, l).rev.frozen == r.rev.frozen
  {
  }

  lemma RetrySetsWait(r: Record, l: Label)
    requires l.Retry?
    ensures Next(r, l).rev.frozen == r.rev.frozen && Next(r, l).rev.availableAt == l.now + l.delay
  {
  }

  predicate Timed(c: Call) {
    c.now == Start == LastReading(c)
  }

  lemma OneInstant(sha: Hash)
    ensures Clocked(Calls(sha), Start) && WholeReadings(Calls(sha))
  {
    assert Timed(Preparing) && Timed(Authorizing(sha)) && Timed(Anchoring(sha));
    assert Timed(Requesting) && Timed(Claiming) && Timed(Retrying);
    hide Timed, Authorizing, Anchoring, Clocked, WholeReadings;
    assert forall c | c in Calls(sha) :: Timed(c);
    ClockedOnce(Calls(sha));
    WholeOnce(Calls(sha));
  }

  lemma WholeOnce(cs: seq<Call>)
    requires forall c | c in cs :: Timed(c)
    ensures WholeReadings(cs)
  {
  }

  lemma {:induction false} ClockedOnce(cs: seq<Call>)
    requires forall c | c in cs :: Timed(c)
    ensures Clocked(cs, Start)
    decreases |cs|
  {
    if |cs| > 0 {
      assert cs[0] in cs;
      ClockedOnce(cs[1..]);
    }
  }
}
