/**
 The durable broker. It holds a single-use handle per prepared credential, drives the repository
 through authorization, anchoring and activation, re-checks every answer, and persists a revocation
 intent on every failure after the anchor. What the surroundings decide - cancellation, issuer answers,
 clock readings, calls of others that reach the repository in between - is the script of a run.
 */
module DurableBrokers {
  import opened Options
  import opened Text
  import opened Revocations
  import opened Lifecycle
  import opened LifecycleTraces
  import opened RepositoryModel
  import opened RepositoryRuns
  import opened RepositoryDecisions
  import opened MemoryRepositories
  import opened BrokerChecks
  import opened BrokerAgreement
  import opened IssuanceSafety
  import opened DurableScripts

  /** Shared by all copies of one prepared handle. */
  class PreparedState {
    const owner: DurableBroker
    const revocationID: string
    var phase: Phase
    var held: Option<PreparedCredential>
    ghost const preparedAt: Time
    ghost var uses: nat

    /** Consumed at most once, and never holding a deadline beyond any of its three limits. */
    ghost predicate Valid()
      reads this
    {
      && uses == (if phase == Ready then 0 else 1) && (phase == Ready <==> held.Some?)
      && (held.Some? ==> WithinLimits(held.value, preparedAt) && held.value.revocationID == revocationID)
    }

    constructor (owner: DurableBroker, prepared: PreparedCredential, ghost now: Time)
      requires WithinLimits(prepared, now)
      ensures Valid() && phase == Ready && held == Some(prepared) && preparedAt == now
      ensures this.owner == owner && this.revocationID == prepared.revocationID
    {
      this.owner, this.revocationID, preparedAt := owner, prepared.revocationID, now;
      phase, held, uses := Ready, Some(prepared), 0;
    }
  }

  datatype PreparedHandle = PreparedHandle(revocationID: string, state: PreparedState?)

  /** Shared by all copies of one issued credential. */
  class CredentialState {
    const owner: DurableBroker
    const revocationID: string
    const expiresAt: Time
    const active: Revocation
    var secret: Material
    var requested: Option<Revocation>

    constructor (owner: DurableBroker, active: Revocation, expiresAt: Time)
      ensures this.owner == owner && this.revocationID == active.frozen.id && this.expiresAt == expiresAt
      ensures this.active == active && secret == Held && requested == None
    {
      this.owner, this.revocationID, this.expiresAt, this.active := owner, active.frozen.id, expiresAt, active;
      secret, requested := Held, None;
    }
  }

  datatype Credential = Credential(revocationID: string, expiresAt: Time, state: CredentialState?)

  // ---------------------------------------------------------------- the broker

  class DurableBroker {
    const repository: MemoryRepository

    constructor (repository: MemoryRepository)
      ensures this.repository == repository
    {
      this.repository := repository;
    }

    /**
     Resolves an issuer, computes the deadline and has the repository prepare a record. A handle comes
     back only for a record this call created, in a fresh state that no other handle shares.
     */
    method Prepare(q: DurableRequest, canceled: bool, resolved: Option<Profile>, finalizeContext: bool, uuid: Option<string>,
                   now: Time, x: PrepareScript) returns (outcome: Outcome<PreparedHandle>)
      modifies repository
      ensures outcome.Done? ==>
                && outcome.value.state != null && fresh(outcome.value.state) && outcome.value.state.Valid()
                && outcome.value.state.owner == this && outcome.value.state.phase == Ready && outcome.value.state.preparedAt == now
                && outcome.value.state.revocationID == outcome.value.revocationID && outcome.value.state.held.Some?
                && var held, id := outcome.value.state.held.value, outcome.value.revocationID;
                && held.revocationID == id && held.request == q && resolved == Some(held.profile) && uuid == Some(id)
                && now + ChildCreateExpiryReserve + MinChildCreateTTL <= held.expiresAt
                && id !in old(repository.records) && id in repository.records && repository.records[id].rev == held.prepared
                && repository.Contents() == After(repository.sha, old(repository.Contents()), PrepareCall(q, held.profile, id, held.expiresAt, x))
      ensures outcome.Done? && old(Consistent(repository.Contents())) && x.now != Zero && x.finalNow != Zero ==>
                Quiescent(repository.Contents(), outcome.value.revocationID, Shown(repository.sha, q.fence))
      ensures outcome.Done? && x.now > 0 ==>
                Pristine(repository.sha, repository.records[outcome.value.revocationID], outcome.value.state.held.value)
      ensures outcome.Failed? && outcome.error != IssuanceError ==> repository.Contents() == old(repository.Contents())
      ensures (!canceled && finalizeContext && resolved.Some? && uuid.Some?
               && old(HandleOwed(repository.Contents(), q, resolved.value, uuid.value, now, x))) ==> outcome.Done?
    {
      hide After, PrepareReply, ValidSelection, ValidActionFence, ValidProfile, ValidUUID, ValidPrepared, Consistent, Live, Limit,
           HandleOwed, Pristine, HeldBy;
      if resolved.Some? && uuid.Some? && HandleOwed(repository.Contents(), q, resolved.value, uuid.value, now, x) {
        HandleOwedArguments(repository.Contents(), q, resolved.value, uuid.value, now, x);
      }
      if canceled || !ValidActionFence(q.fence) || !ValidSelection(q.selection) || !ValidWindow(q) { return Failed(InvalidDurableRequest); }
      if resolved.None? || !ValidProfile(resolved.value) || !finalizeContext { return Failed(IssuanceError); }
      if uuid.None? || !ValidUUID(uuid.value) || now == Zero { return Failed(IssuanceError); }
      var profile, id := resolved.value, uuid.value;
      var expires := DurableCredentialExpiry(now, q, profile);
      if expires.None? { return Failed(InvalidDurableRequest); }
      ghost var s, c := repository.Contents(), PrepareCall(q, profile, id, expires.value, x);
      if HandleOwed(s, q, profile, id, now, x) { HandleOwedAccepts(repository.sha, s, q, profile, id, now, x, c); }
      var reply := repository.Prepare(PrepareRequest(id, q.fence, profile.issuerID, profile.revision, expires.value),
                                      x.now, x.first, x.finalNow, x.second, x.permitToken);
      if reply.Err? || !reply.value.created || reply.value.permit.None?
         || !ValidPrepared(reply.value, id, q, profile, expires.value) {
        return Failed(IssuanceError);
      }
      CreatedForBroker(repository.sha, s, c);
      var prepared := PreparedCredential(q, profile, reply.value.revocation, reply.value.permit.value, id, expires.value);
      if x.now > 0 { PreparedIsPristine(repository.sha, s, c, prepared, reply.value); }
      if Consistent(s) && x.now != Zero && x.finalNow != Zero { PreparedIsQuiescent(repository.sha, s, c); }
      ghost var after := repository.Contents();
      var state := new PreparedState(this, prepared, now);
      assert repository.Contents() == after;
      return Done(PreparedHandle(id, state));
    }

    /** The handle is one of this broker's, unaltered, and no copy of it has been used. */
    predicate Consumable(handle: PreparedHandle)
      reads handle.state
    {
      && handle.state != null && handle.state.owner == this && handle.state.phase == Ready
      && handle.revocationID == handle.state.revocationID && handle.state.held.Some?
    }

    /** Takes the prepared credential out of its handle; no copy of the handle can do so again. */
    method Consume(handle: PreparedHandle, phase: Phase) returns (outcome: Outcome<PreparedCredential>)
      requires phase != Ready && (handle.state != null ==> handle.state.Valid())
      modifies handle.state
      ensures handle.state != null ==> handle.state.Valid()
      ensures outcome.Done? ==>
                && handle.state != null && old(handle.state.phase) == Ready && handle.state.phase == phase
                && old(handle.state.held) == Some(outcome.value) && handle.state.uses == 1
                && handle.state.owner == this && outcome.value.revocationID == handle.revocationID
      ensures outcome.Failed? && handle.state != null ==> unchanged(handle.state)
      ensures outcome.Failed? ==> outcome.error == StateError
      ensures outcome.Done? ==> old(Consumable(handle))
      ensures old(Consumable(handle)) && Intact(old(handle.state.held).value, handle.revocationID) ==> outcome.Done?
    {
      if handle.state == null { return Failed(StateError); }
      var state := handle.state;
      if state.owner != this || state.phase != Ready || handle.revocationID != state.revocationID { return Failed(StateError); }
      var held := state.held.value;
      if !Intact(held, state.revocationID) { return Failed(StateError); }
      state.phase, state.held := phase, None;
      state.uses := state.uses + 1;
      return Done(held);
    }

    /** Calls of others that reach the repository at this point. */
    method Others(x: Script, k: nat, ghost id: string, ghost key: FenceKey)
      requires Fair(repository.sha, key, x, id) && Present(repository.Contents(), id, key)
      modifies repository
      ensures Present(repository.Contents(), id, key)
      ensures old(Quiescent(repository.Contents(), id, key)) ==> Quiescent(repository.Contents(), id, key)
      ensures old(repository.records[id].rev.status) != Active ==> repository.records[id].rev.status != Active
      ensures old(Avoided(x, k, id, repository.records[id])) ==> repository.records[id] == old(repository.records[id])
    {
      hide Run, Foreign, Consistent, Live, Avoided, HeldBy;
      ghost var s, calls := repository.Contents(), x.others(k);
      assert Foreign(repository.sha, key, calls, id);
      ForeignKeepsPresent(repository.sha, s, calls, id, key);
      if Quiescent(s, id, key) { ForeignKeepsQuiescent(repository.sha, s, calls, id, key); }
      if s.records[id].rev.status != Active { ForeignKeepsNotActive(repository.sha, s, calls, id, key); }
      if Avoided(x, k, id, s.records[id]) { AvoidedStays(repository.sha, s, x, k, id); }
      repository.PerformAll(x.others(k));
    }

    /** `persistRevocationIntent`: the system form of RequestRevocation, if a context for it can be made. */
    method PersistIntent(x: Script, id: string, ghost key: FenceKey)
      requires Fair(repository.sha, key, x, id) && Present(repository.Contents(), id, key)
      modifies repository
      ensures Present(repository.Contents(), id, key)
      ensures x.intentContext ==> Quiescent(repository.Contents(), id, key)
    {
      hide After, Consistent, Live, Foreign, HeldBy;
      if !x.intentContext { return; }
      Others(x, 3, id, key);
      IntentStops(repository.sha, repository.Contents(), id, key, x.intentNow);
      var _ := repository.RequestRevocation(id, NoFence, None, x.intentNow);
    }

    method AuthorizeChild(held: PreparedCredential, x: Script, ghost key: FenceKey) returns (reply: Result<ChildCreateAuthorization>)
      requires Fair(repository.sha, key, x, held.revocationID) && Quiescent(repository.Contents(), held.revocationID, key)
      modifies repository
      ensures Quiescent(repository.Contents(), held.revocationID, key)
      ensures old(Owed(repository.sha, repository.records[held.revocationID], held, x)) ==>
                var r := old(repository.records[held.revocationID]);
                && reply == Ok(Grant(r, x)) && repository.records[held.revocationID] == AuthorizedAs(r, x)
                && ValidAuthorization(Grant(r, x), held.prepared, held.revocationID, held.request, held.profile, held.expiresAt)
    {
      hide After, Consistent, Live, Foreign, CanEnliven, HeldBy, Owed, Grant, AuthorizedAs, ValidAuthorization, AuthorizeReply, Avoided;
      ghost var id, r := held.revocationID, repository.records[held.revocationID];
      if Owed(repository.sha, r, held, x) { OwedAvoids(repository.sha, r, held, x, r, 0); }
      Others(x, 0, id, key);
      ghost var c := AuthorizeCall(held, x);
      AuthorizeTraits(repository.sha, key, c, id);
      StrangerKeepsQuiescent(repository.sha, repository.Contents(), c, id, key);
      if Owed(repository.sha, r, held, x) { OwedAuthorization(repository.sha, repository.Contents(), r, held, x, c); }
      reply := repository.AuthorizeChildCreate(held.permit, held.request.fence, x.authorizeGate, x.authorizeNow);
    }

    method AnchorChild(held: PreparedCredential, x: Script, ghost key: FenceKey, ghost r: Record) returns (reply: Result<Revocation>)
      requires Fair(repository.sha, key, x, held.revocationID) && Present(repository.Contents(), held.revocationID, key)
      modifies repository
      ensures Present(repository.Contents(), held.revocationID, key)
      ensures reply.Ok? ==> repository.records[held.revocationID].rev == reply.value
      ensures Owed(repository.sha, r, held, x) && old(repository.records[held.revocationID]) == AuthorizedAs(r, x) ==>
                && x.protector.protect.Some? && repository.records[held.revocationID] == AnchoredAs(r, x)
                && reply == Ok(AnchoredAs(r, x).rev)
                && ValidNext(AnchoredAs(r, x).rev, AuthorizedAs(r, x).rev, held.revocationID, held.request, held.profile, held.expiresAt, Anchored)
    {
      hide After, Consistent, Foreign, RevocationReply, HeldBy, Owed, AuthorizedAs, AnchoredAs, ValidNext, Avoided;
      var id := held.revocationID;
      ghost var owed := Owed(repository.sha, r, held, x) && repository.records[id] == AuthorizedAs(r, x);
      if owed { OwedAvoids(repository.sha, r, held, x, AuthorizedAs(r, x), 1); }
      Others(x, 1, id, key);
      ghost var s, c := repository.Contents(), AnchorCall(held, x);
      AnchorTraits(c);
      CallKeepsPresent(repository.sha, s, c, id, key);
      if RevocationReply(repository.sha, s, c).Ok? { ReplyShowsRecord(repository.sha, s, c); }
      if owed { OwedAnchor(repository.sha, s, r, held, x, c); }
      reply := repository.RecordAnchor(id, held.request.fence, x.accessorValid, x.anchorGate, x.protector, x.anchorNow, x.anchorLast);
    }

    method ActivateChild(held: PreparedCredential, x: Script, ghost key: FenceKey, ghost r: Record)
      returns (reply: Result<Revocation>, ghost before: Store)
      requires Fair(repository.sha, key, x, held.revocationID) && Present(repository.Contents(), held.revocationID, key)
      modifies repository
      ensures Present(repository.Contents(), held.revocationID, key)
      ensures held.revocationID in repository.records
      ensures reply.Ok? ==> repository.records[held.revocationID].rev == reply.value
      ensures repository.Contents() == After(repository.sha, before, ActivateCall(held, x))
      ensures held.revocationID in before.records
      ensures old(repository.records[held.revocationID].rev.status) != Active && reply.Ok? && reply.value.status == Active ==>
                before.records[held.revocationID].rev.status == Anchored
      ensures (Owed(repository.sha, r, held, x) && x.protector.protect.Some?
               && old(repository.records[held.revocationID]) == AnchoredAs(r, x)) ==>
                && reply.Ok?
                && ValidNext(reply.value, AnchoredAs(r, x).rev, held.revocationID, held.request, held.profile, held.expiresAt, Active)
    {
      hide After, Consistent, Foreign, RevocationReply, HeldBy, Owed, AnchoredAs, ValidNext, Avoided;
      var id := held.revocationID;
      ghost var owed := Owed(repository.sha, r, held, x) && x.protector.protect.Some? && repository.records[id] == AnchoredAs(r, x);
      if owed { OwedAvoids(repository.sha, r, held, x, AnchoredAs(r, x), 2); }
      Others(x, 2, id, key);
      before := repository.Contents();
      ghost var c := ActivateCall(held, x);
      AnchorTraits(c);
      CallKeepsPresent(repository.sha, before, c, id, key);
      if RevocationReply(repository.sha, before, c).Ok? { ReplyShowsRecord(repository.sha, before, c); }
      if owed { OwedActivation(repository.sha, before, r, held, x, c); }
      reply := repository.Activate(id, held.request.fence, x.activateGate, x.activateNow, x.activateLast);
      if before.records[id].rev.status != Active && reply.Ok? && reply.value.status == Active {
        ActivatedFromAnchored(repository.sha, before, c, id);
      }
    }

    /** From the inspected child to the credential: dynamic secret, then activation. */
    method IssueDynamic(held: PreparedCredential, a: ChildCreateAuthorization, anchored: Revocation, x: Script, start: Custody,
                        ghost key: FenceKey, ghost r: Record)
      returns (outcome: Outcome<Credential>, custody: Custody, ghost before: Store)
      requires Fair(repository.sha, key, x, held.revocationID) && Present(repository.Contents(), held.revocationID, key)
      requires repository.records[held.revocationID].rev == anchored && anchored.status == Anchored
      requires start.accessor != Held && start.secret != Held
      modifies repository
      ensures Present(repository.Contents(), held.revocationID, key)
      ensures custody.token != Held && custody.accessor != Held
      ensures outcome.Failed? ==> custody.secret != Held && (x.intentContext ==> Quiescent(repository.Contents(), held.revocationID, key))
      ensures outcome.Done? ==>
                && custody.secret == Held && outcome.value.state != null && Wraps(outcome.value, held.revocationID, x.dynamic.expiresAt, outcome.value.state.active)
                && Activated(repository.sha, held, a, anchored, x, outcome.value.state.active, before, repository.Contents())
      ensures (Owed(repository.sha, r, held, x) && a == Grant(r, x) && x.protector.protect.Some?
               && old(repository.records[held.revocationID]) == AnchoredAs(r, x)) ==> outcome.Done?
    {
      hide Consistent, Live, Fair, After, Activated, Wraps, ValidSecret, Owed, Grant, AnchoredAs, HeldBy;
      custody, before := start, repository.Contents();
      var id := held.revocationID;
      if Owed(repository.sha, r, held, x) { OwedChecks(repository.sha, r, held, x); }
      if x.canceled(2) {
        custody := custody.(token := Destroy(custody.token));
        PersistIntent(x, id, key);
        return Failed(IssuanceError), custody, before;
      }
      custody := custody.(secret := Held, token := Destroy(custody.token));
      if !x.dynamicIssued || !ValidSecret(x.dynamic, a, x.child.expiresAt, x.dynamicNow) {
        custody := DestroySecret(custody);
        PersistIntent(x, id, key);
        return Failed(IssuanceError), custody, before;
      }
      outcome, before := HandOver(held, a, anchored, x, key, r);
      if outcome.Failed? { custody := DestroySecret(custody); }
    }

    /** Activates the record and builds the credential, or persists the intent to revoke. */
    method HandOver(held: PreparedCredential, a: ChildCreateAuthorization, anchored: Revocation, x: Script,
                    ghost key: FenceKey, ghost r: Record)
      returns (outcome: Outcome<Credential>, ghost before: Store)
      requires Fair(repository.sha, key, x, held.revocationID) && Present(repository.Contents(), held.revocationID, key)
      requires held.revocationID in repository.records
      requires repository.records[held.revocationID].rev == anchored && anchored.status == Anchored
      requires ValidSecret(x.dynamic, a, x.child.expiresAt, x.dynamicNow)
      modifies repository
      ensures Present(repository.Contents(), held.revocationID, key)
      ensures outcome.Failed? && x.intentContext ==> Quiescent(repository.Contents(), held.revocationID, key)
      ensures outcome.Done? ==>
                && outcome.value.state != null && Wraps(outcome.value, held.revocationID, x.dynamic.expiresAt, outcome.value.state.active)
                && Activated(repository.sha, held, a, anchored, x, outcome.value.state.active, before, repository.Contents())
      ensures (Owed(repository.sha, r, held, x) && a == Grant(r, x) && x.protector.protect.Some?
               && old(repository.records[held.revocationID]) == AnchoredAs(r, x)) ==> outcome.Done?
    {
      hide Present, Quiescent, Fair, ValidNext, After, Activated, ValidSecret, Owed, Grant, AnchoredAs;
      before := repository.Contents();
      var id := held.revocationID;
      if Owed(repository.sha, r, held, x) { OwedChecks(repository.sha, r, held, x); }
      if x.canceled(3) || !x.activateContext {
        PersistIntent(x, id, key);
        return Failed(IssuanceError), before;
      }
      var reply;
      reply, before := ActivateChild(held, x, key, r);
      if reply.Err? || !ValidNext(reply.value, anchored, id, held.request, held.profile, held.expiresAt, Active) || x.canceled(4) {
        PersistIntent(x, id, key);
        return Failed(IssuanceError), before;
      }
      ActivatedStatus(reply.value, anchored, id, held.request, held.profile, held.expiresAt);
      ActivatedNow(repository.sha, held, a, anchored, x, reply.value, before, repository.Contents());
      ghost var after := repository.Contents();
      var state := new CredentialState(this, reply.value, x.dynamic.expiresAt);
      assert repository.Contents() == after;
      outcome := Done(Credential(id, x.dynamic.expiresAt, state));
    }

    /** From the created child to the credential: anchor it, check it, inspect it, then issue. */
    method IssueWithChild(held: PreparedCredential, a: ChildCreateAuthorization, x: Script, start: Custody, ghost key: FenceKey, ghost r: Record)
      returns (outcome: Outcome<Credential>, custody: Custody, ghost anchored: Revocation, ghost before: Store)
      requires Fair(repository.sha, key, x, held.revocationID) && Quiescent(repository.Contents(), held.revocationID, key)
      requires start.secret != Held
      modifies repository
      ensures Present(repository.Contents(), held.revocationID, key)
      ensures outcome.Failed? ==> custody.secret != Held && (x.intentContext ==> Quiescent(repository.Contents(), held.revocationID, key))
      ensures outcome.Done? ==>
                && custody.secret == Held && outcome.value.state != null
                && Wraps(outcome.value, held.revocationID, x.dynamic.expiresAt, outcome.value.state.active)
                && Activated(repository.sha, held, a, anchored, x, outcome.value.state.active, before, repository.Contents())
                && anchored.version == a.revocation.version + 1
      ensures Owed(repository.sha, r, held, x) && a == Grant(r, x) && old(repository.records[held.revocationID]) == AuthorizedAs(r, x) ==>
                outcome.Done?
    {
      hide Consistent, Live, Fair, After, Activated, Wraps, ValidNext, ValidChild, Owed, Grant, AuthorizedAs, AnchoredAs, HeldBy;
      custody, anchored, before := start, a.revocation, repository.Contents();
      var id := held.revocationID;
      if Owed(repository.sha, r, held, x) { OwedChecks(repository.sha, r, held, x); }
      if !x.accessor { return Failed(IssuanceError), custody, anchored, before; }
      if !x.anchorContext {
        custody := DestroyChild(custody);
        return Failed(IssuanceError), custody, anchored, before;
      }
      var checked := AnchorChecked(held, a, x, key, r);
      if checked.None? {
        custody := DestroyChild(custody);
        return Failed(IssuanceError), custody, anchored, before;
      }
      anchored := checked.value;
      custody := custody.(accessor := Destroy(custody.accessor));
      outcome, custody, before := IssueDynamic(held, a, checked.value, x, custody, key, r);
    }

    /** Anchors the child and checks reply, child and inspection; if any of them fails, the intent to revoke is persisted. */
    method AnchorChecked(held: PreparedCredential, a: ChildCreateAuthorization, x: Script, ghost key: FenceKey, ghost r: Record)
      returns (anchored: Option<Revocation>)
      requires Fair(repository.sha, key, x, held.revocationID) && Present(repository.Contents(), held.revocationID, key)
      modifies repository
      ensures Present(repository.Contents(), held.revocationID, key) && held.revocationID in repository.records
      ensures anchored.None? && x.intentContext ==> Quiescent(repository.Contents(), held.revocationID, key)
      ensures anchored.Some? ==>
                && repository.records[held.revocationID].rev == anchored.value
                && anchored.value.status == Anchored && anchored.value.version == a.revocation.version + 1
      ensures Owed(repository.sha, r, held, x) && a == Grant(r, x) && old(repository.records[held.revocationID]) == AuthorizedAs(r, x) ==>
                anchored.Some? && x.protector.protect.Some? && repository.records[held.revocationID] == AnchoredAs(r, x)
    {
      hide Consistent, Live, Fair, After, ValidNext, ValidChild, Owed, Grant, AuthorizedAs, AnchoredAs, HeldBy;
      var id := held.revocationID;
      GrantShows(r, x);
      if Owed(repository.sha, r, held, x) { OwedChecks(repository.sha, r, held, x); }
      var reply := AnchorChild(held, x, key, r);
      if reply.Err? || !ValidNext(reply.value, a.revocation, id, held.request, held.profile, held.expiresAt, Anchored)
         || x.canceled(1) || !x.childCreated || !ValidChild(x.child, a) || !x.inspected {
        PersistIntent(x, id, key);
        return None;
      }
      AnchoredStatus(reply.value, a.revocation, id, held.request, held.profile, held.expiresAt);
      return Some(reply.value);
    }

    /**
     One run. However it ends, child token and accessor are destroyed. If it fails, so is the dynamic
     secret, and the record holds no usable credential once the revocation intent could be persisted.
     If it succeeds, the record was just made active by this very run.
     */
    method Issue(handle: PreparedHandle, x: Script, ghost key: FenceKey)
      returns (outcome: Outcome<Credential>, custody: Custody, ghost trail: Option<Trail>)
      requires handle.state != null ==> handle.state.Valid()
      requires Consumable(handle) ==>
                 Fair(repository.sha, key, x, handle.revocationID) && Quiescent(repository.Contents(), handle.revocationID, key)
      modifies handle.state, repository
      ensures handle.state != null ==> handle.state.Valid()
      ensures old(Consumable(handle)) ==> Present(repository.Contents(), handle.revocationID, key)
      ensures custody.token != Held && custody.accessor != Held
      ensures outcome.Failed? ==> NothingHeld(custody)
      ensures outcome.Failed? && old(Consumable(handle)) && x.intentContext ==> Quiescent(repository.Contents(), handle.revocationID, key)
      ensures !old(Consumable(handle)) ==> outcome.Failed? && repository.Contents() == old(repository.Contents())
      ensures old(Consumable(handle)) && old(Owed(repository.sha, repository.records[handle.revocationID], handle.state.held.value, x)) ==>
                outcome.Done?
      ensures outcome.Done? ==>
                && custody.secret == Held && handle.state != null && old(handle.state.phase) == Ready && handle.state.phase == Issuing
                && old(handle.state.held).Some? && outcome.value.state != null && trail.Some?
                && var held, a, anchored := old(handle.state.held).value, trail.value.authorized, trail.value.anchored;
                && Wraps(outcome.value, handle.revocationID, x.dynamic.expiresAt, outcome.value.state.active)
                && Activated(repository.sha, held, a, anchored, x, outcome.value.state.active, trail.value.before, repository.Contents())
                && anchored.version == a.revocation.version + 1 == held.prepared.version + 2
                && outcome.value.expiresAt <= a.credentialExpiresAt == held.expiresAt
                && outcome.value.expiresAt <= held.request.policyExpiresAt
                && outcome.value.expiresAt <= handle.state.preparedAt + held.request.requestedTTL
    {
      hide Consistent, Live, Fair, After, Activated, Wraps, Owed, HeldBy;
      custody, trail := NoCustody, None;
      if Consumable(handle) && Owed(repository.sha, repository.records[handle.revocationID], handle.state.held.value, x) {
        OwedChecks(repository.sha, repository.records[handle.revocationID], handle.state.held.value, x);
      }
      if x.canceled(0) { return Failed(Canceled), custody, trail; }
      var consumed := Consume(handle, Issuing);
      if consumed.Failed? { return Failed(consumed.error), custody, trail; }
      outcome, custody, trail := IssueConsumed(consumed.value, x, key);
    }

    /** A run once it has taken the credential out of its handle. */
    method IssueConsumed(held: PreparedCredential, x: Script, ghost key: FenceKey)
      returns (outcome: Outcome<Credential>, custody: Custody, ghost trail: Option<Trail>)
      requires Fair(repository.sha, key, x, held.revocationID) && Quiescent(repository.Contents(), held.revocationID, key)
      modifies repository
      ensures Present(repository.Contents(), held.revocationID, key)
      ensures custody.token != Held && custody.accessor != Held
      ensures outcome.Failed? ==> NothingHeld(custody) && (x.intentContext ==> Quiescent(repository.Contents(), held.revocationID, key))
      ensures outcome.Done? ==>
                && custody.secret == Held && outcome.value.state != null && trail.Some?
                && var a, anchored := trail.value.authorized, trail.value.anchored;
                && Wraps(outcome.value, held.revocationID, x.dynamic.expiresAt, outcome.value.state.active)
                && Activated(repository.sha, held, a, anchored, x, outcome.value.state.active, trail.value.before, repository.Contents())
                && anchored.version == a.revocation.version + 1 == held.prepared.version + 2
                && outcome.value.expiresAt <= a.credentialExpiresAt == held.expiresAt
      ensures old(Owed(repository.sha, repository.records[held.revocationID], held, x)) ==> outcome.Done?
    {
      hide Consistent, Live, Fair, After, Activated, Wraps, ValidAuthorization, Owed, Grant, AuthorizedAs, HeldBy;
      custody, trail := NoCustody, None;
      ghost var r := repository.records[held.revocationID];
      if Owed(repository.sha, r, held, x) { OwedChecks(repository.sha, r, held, x); }
      if !x.managerValid || !x.createContext { return Failed(IssuanceError), custody, trail; }
      var authorized := AuthorizeChild(held, x, key);
      if authorized.Err?
         || !ValidAuthorization(authorized.value, held.prepared, held.revocationID, held.request, held.profile, held.expiresAt) {
        return Failed(IssuanceError), custody, trail;
      }
      AuthorizedVersion(authorized.value, held.prepared, held.revocationID, held.request, held.profile, held.expiresAt);
      custody := Custody(Held, if x.accessor then Held else Absent, Absent);
      ghost var anchored, before;
      outcome, custody, anchored, before := IssueWithChild(held, authorized.value, x, custody, key, r);
      // The deferred destruction of the child's token and accessor.
      custody := DestroyChild(custody);
      trail := Some(Trail(authorized.value, anchored, before));
      if outcome.Done? {
        ActivatedDeadline(repository.sha, held, authorized.value, anchored, x, outcome.value.state.active, before, repository.Contents());
        WrappedDeadline(outcome.value, held.revocationID, x.dynamic.expiresAt, outcome.value.state.active);
      }
    }

    /**
     Closes a prepared credential that will not be issued. The handle still holds the permit, so however long ago it was
     prepared and whatever others did since, the broker accepts every reply that is no error.
     */
    method RecordNoCredential(handle: PreparedHandle, canceled: bool, metadata: Option<Metadata>, now: Time,
                              ghost born: Store, ghost since: seq<Call>, ghost t: Time)
      returns (outcome: Outcome<Revocation>)
      requires handle.state != null ==> handle.state.Valid()
      modifies handle.state, repository
      ensures handle.state != null ==> handle.state.Valid()
      ensures !old(Consumable(handle)) ==> outcome.Failed? && repository.Contents() == old(repository.Contents())
      ensures outcome.Done? ==>
                && handle.state != null && handle.state.phase == WithoutCredential
                && handle.revocationID in repository.records && repository.records[handle.revocationID].rev == outcome.value
                && outcome.value.status == NoCredential
      ensures (!canceled && old(Consumable(handle))
               && old(PreparedSince(repository.sha, repository.Contents(), born, since, t, handle.state.held.value, now))) ==>
                var c := Call.RecordNoCredential(handle.revocationID, old(handle.state.held).value.request.fence, metadata, now);
                outcome.Done? <==> OnOneRecord(c) && RevocationReply(repository.sha, old(repository.Contents()), c).Ok?
    {
      hide After, Yields, RevocationReply, ValidNoCredential, PreparedSince, OnOneRecord;
      if canceled { return Failed(Canceled); }
      ghost var whole := Consumable(handle) && PreparedSince(repository.sha, repository.Contents(), born, since, t, handle.state.held.value, now);
      if whole { SinceIntact(repository.sha, repository.Contents(), born, since, t, handle.state.held.value, now); }
      var consumed := Consume(handle, WithoutCredential);
      if consumed.Failed? { return Failed(consumed.error); }
      var held := consumed.value;
      ghost var s, c := repository.Contents(), Call.RecordNoCredential(held.revocationID, held.request.fence, metadata, now);
      ClosingCall(c);
      var reply := repository.RecordNoCredential(held.revocationID, held.request.fence, metadata, now);
      ClosingReply(repository.sha, s, c, repository.Contents(), reply);
      if whole && reply.Ok? { SinceAccepts(repository.sha, s, born, since, t, held, now, c); }
      if reply.Err? || !ValidNoCredential(reply.value, held.prepared, held.revocationID, held.request, held.profile, held.expiresAt) {
        return Failed(IssuanceError);
      }
      ClosedReply(repository.sha, s, c, repository.Contents(), reply);
      ClosedStatus(reply.value, held.prepared, held.revocationID, held.request, held.profile, held.expiresAt);
      return Done(reply.value);
    }

    /** Destroys the local secret before anything else; a successful answer is cached for every copy. */
    method RequestRevocation(credential: Credential, canceled: bool, now: Time, ghost born: Store, ghost since: seq<Call>, ghost t: Time)
      returns (outcome: Outcome<Revocation>)
      modifies credential.state, repository
      ensures credential.state != null ==> credential.state.secret != Held
      ensures credential.state != null && old(credential.state.requested).Some? ==>
                && credential.state.requested == old(credential.state.requested)
                && repository.Contents() == old(repository.Contents())
                && (outcome.Done? ==> outcome.value == old(credential.state.requested).value)
      ensures outcome.Done? ==>
                && credential.state != null && credential.state.requested == Some(outcome.value)
                && (old(credential.state.requested).None? ==>
                      && credential.revocationID in repository.records && repository.records[credential.revocationID].rev == outcome.value
                      && ValidRequested(outcome.value, credential.revocationID, credential.state.active))
      ensures outcome.Failed? && credential.state != null ==> credential.state.requested == old(credential.state.requested)
      ensures (!canceled && old(Genuine(credential)) && credential.revocationID == credential.state.active.frozen.id
               && ActiveSince(repository.sha, old(repository.Contents()), born, since, t, credential.state.active, now)) ==> outcome.Done?
    {
      hide After, Yields, RevocationReply, ValidRequested, ValidUUID, ActiveSince;
      if credential.state == null { return Failed(StateError); }
      var state := credential.state;
      state.secret := Destroy(state.secret);
      if !Genuine(credential) { return Failed(StateError); }
      if state.requested.Some? { return Done(state.requested.value); }
      if canceled { return Failed(Canceled); }
      ghost var s, c := repository.Contents(), Intent(state.revocationID, now);
      var reply := repository.RequestRevocation(state.revocationID, NoFence, None, now);
      ClosingReply(repository.sha, s, c, repository.Contents(), reply);
      if state.revocationID == state.active.frozen.id && ActiveSince(repository.sha, s, born, since, t, state.active, now) {
        ActiveAnswers(repository.sha, s, born, since, t, state.active, now, c);
      }
      if reply.Err? || !ValidRequested(reply.value, state.revocationID, state.active) { return Failed(IssuanceError); }
      ClosedReply(repository.sha, s, c, repository.Contents(), reply);
      state.requested := Some(reply.value);
      return Done(reply.value);
    }

    /** The credential is one of this broker's and shows what its state holds. */
    predicate Genuine(credential: Credential)
      reads credential.state
    {
      && credential.state != null && credential.revocationID == credential.state.revocationID
      && credential.expiresAt == credential.state.expiresAt && ValidUUID(credential.revocationID) && credential.expiresAt != Zero
      && credential.state.owner == this
    }

    lemma WrappedDeadline(credential: Credential, id: string, expiresAt: Time, active: Revocation)
      requires Wraps(credential, id, expiresAt, active)
      ensures credential.expiresAt == expiresAt
    {
    }

    ghost predicate Wraps(credential: Credential, id: string, expiresAt: Time, active: Revocation)
      reads credential.state
    {
      && credential == Credential(id, expiresAt, credential.state) && credential.state != null
      && credential.state.owner == this && credential.state.revocationID == id && credential.state.expiresAt == expiresAt
      && credential.state.active == active && credential.state.secret == Held && credential.state.requested == None
    }
  }

  /** The record is active, it was this run's activation that made it so, and the secret respects every deadline. */
  ghost predicate Activated(sha: Hash, held: PreparedCredential, a: ChildCreateAuthorization, anchored: Revocation, x: Script,
                            active: Revocation, before: Store, after: Store)
  {
    var id := held.revocationID;
    && id in after.records && after.records[id].rev == active && active.status == Active && active.version == anchored.version + 1
    && id in before.records && before.records[id].rev.status == Anchored
    && after == After(sha, before, ActivateCall(held, x))
    && x.dynamicNow < x.dynamic.expiresAt <= x.child.expiresAt && x.dynamic.expiresAt <= a.credentialExpiresAt
  }

  lemma ActivatedNow(sha: Hash, held: PreparedCredential, a: ChildCreateAuthorization, anchored: Revocation, x: Script,
                     active: Revocation, before: Store, after: Store)
    requires held.revocationID in after.records && after.records[held.revocationID].rev == active
    requires held.revocationID in before.records && before.records[held.revocationID].rev.status == Anchored
    requires ValidNext(active, anchored, held.revocationID, held.request, held.profile, held.expiresAt, Active)
    requires ValidSecret(x.dynamic, a, x.child.expiresAt, x.dynamicNow)
    requires after == After(sha, before, ActivateCall(held, x))
    ensures Activated(sha, held, a, anchored, x, active, before, after)
  {
    hide After;
  }

  lemma ActivatedStatus(rev: Revocation, anchored: Revocation, id: string, q: DurableRequest, p: Profile, expiresAt: Time)
    requires ValidNext(rev, anchored, id, q, p, expiresAt, Active)
    ensures rev.status == Active && rev.frozen.id == id && rev.version == anchored.version + 1
  {
  }

  lemma CreatedForBroker(sha: Hash, s: Store, c: Call)
    requires c.Prepare? && PrepareReply(sha, s, c).Ok? && PrepareReply(sha, s, c).value.created
    ensures PrepareOutcomeOf(sha, s, c).Created? && c.request.revocationID !in s.records
    ensures c.request.revocationID in After(sha, s, c).records
    ensures After(sha, s, c).records[c.request.revocationID].rev == PrepareReply(sha, s, c).value.revocation
  {
    hide After, PrepareOutcomeOf;
    CreatedExactly(sha, s, c);
    CreatedShows(sha, s, c);
  }

  lemma PreparedIsQuiescent(sha: Hash, s: Store, c: Call)
    requires c.Prepare? && PrepareOutcomeOf(sha, s, c).Created? && Consistent(s) && c.now != Zero && c.finalNow != Zero
    ensures Quiescent(After(sha, s, c), c.request.revocationID, Shown(sha, c.request.fence))
  {
    hide *;
    PrepareTicks(c);
    ConsistentAfter(sha, s, c);
    CreatedExactly(sha, s, c);
    NewRecordNewborn(sha, c);
    NewRecordHeld(sha, c);
    CreatedShows(sha, s, c);
    NewIsQuiescent(After(sha, s, c), c.request.revocationID, Shown(sha, c.request.fence));
  }

  lemma PrepareTicks(c: Call)
    requires c.Prepare? && c.now != Zero && c.finalNow != Zero
    ensures Ticking(c)
  {
  }

  lemma CreatedShows(sha: Hash, s: Store, c: Call)
    requires c.Prepare? && PrepareOutcomeOf(sha, s, c).Created?
    ensures c.request.revocationID in After(sha, s, c).records
    ensures After(sha, s, c).records[c.request.revocationID] == PrepareOutcomeOf(sha, s, c).record
  {
    hide After, PrepareOutcomeOf;
    StoreAfter(sha, s, c);
  }

  lemma PreparedIsPristine(sha: Hash, s: Store, c: Call, held: PreparedCredential, result: PrepareResult)
    requires c.Prepare? && c.now > 0 && PrepareOutcomeOf(sha, s, c).Created? && PrepareReply(sha, s, c) == Ok(result)
    requires c.request.revocationID == held.revocationID && c.request.fence == held.request.fence
    requires held.prepared == result.revocation && result.permit == Some(held.permit) && ValidProfile(held.profile) && held.expiresAt != Zero
    requires ValidPrepared(result, held.revocationID, held.request, held.profile, held.expiresAt)
    ensures held.revocationID in After(sha, s, c).records
    ensures Pristine(sha, After(sha, s, c).records[held.revocationID], held)
  {
    hide *;
    CreatedExactly(sha, s, c);
    CreatedShows(sha, s, c);
    CreatedReply(sha, s, c);
    AcceptedParts(result, held.revocationID, held.request, held.profile, held.expiresAt);
    CreatedIsPristine(sha, c, held);
  }

  lemma AcceptedParts(result: PrepareResult, id: string, q: DurableRequest, p: Profile, expiresAt: Time)
    requires ValidPrepared(result, id, q, p, expiresAt)
    ensures ValidFrozen(result.revocation, id, q, p, expiresAt, Prepared, false)
    ensures result.permit.Some? && result.permit.value.revocationID == id && ValidOpaqueText(result.permit.value.token, 4096)
  {
    hide ValidFrozen, ValidOpaqueText;
  }

  lemma NewIsQuiescent(s: Store, id: string, key: FenceKey)
    requires Consistent(s) && id in s.records && Newborn(s.records[id]) && HeldBy(s.records[id]) == key
    ensures Quiescent(s, id, key)
  {
    hide Consistent, WellFormed;
  }

  lemma ActivatedDeadline(sha: Hash, held: PreparedCredential, a: ChildCreateAuthorization, anchored: Revocation, x: Script,
                          active: Revocation, before: Store, after: Store)
    requires Activated(sha, held, a, anchored, x, active, before, after)
    ensures x.dynamic.expiresAt <= a.credentialExpiresAt
  {
    hide After;
  }

  lemma AnchoredStatus(rev: Revocation, authorized: Revocation, id: string, q: DurableRequest, p: Profile, expiresAt: Time)
    requires ValidNext(rev, authorized, id, q, p, expiresAt, Anchored)
    ensures rev.status == Anchored && rev.version == authorized.version + 1
  {
  }

  lemma AuthorizedVersion(a: ChildCreateAuthorization, prepared: Revocation, id: string, q: DurableRequest, p: Profile, expiresAt: Time)
    requires ValidAuthorization(a, prepared, id, q, p, expiresAt)
    ensures a.revocation.version == prepared.version + 1 && a.credentialExpiresAt == expiresAt
  {
    hide ValidFrozen;
  }

  lemma ClosedStatus(rev: Revocation, prepared: Revocation, id: string, q: DurableRequest, p: Profile, expiresAt: Time)
    requires ValidNoCredential(rev, prepared, id, q, p, expiresAt)
    ensures rev.status == NoCredential
  {
  }

  lemma ClosingCall(c: Call)
    requires c.RecordNoCredential?
    ensures OnOneRecord(c)
  {
  }

  lemma ClosingReply(sha: Hash, s: Store, c: Call, after: Store, reply: Result<Revocation>)
    requires OnOneRecord(c) && Yields(sha, s, c, after, reply)
    ensures reply == RevocationReply(sha, s, c)
  {
    hide After, RevocationReply;
  }

  lemma ClosedReply(sha: Hash, s: Store, c: Call, after: Store, reply: Result<Revocation>)
    requires (c.RecordNoCredential? || c.RequestRevocation?) && OnOneRecord(c) && Yields(sha, s, c, after, reply) && reply.Ok?
    ensures c.id in after.records && after.records[c.id].rev == reply.value
  {
    hide After, RevocationReply;
    ReplyShowsRecord(sha, s, c);
  }

  lemma AuthorizeTraits(sha: Hash, key: FenceKey, c: Call, id: string)
    requires c.AuthorizeChildCreate? && c.now != Zero
    ensures Stranger(sha, key, c, id)
  {
  }

  lemma AnchorTraits(c: Call)
    requires (c.RecordAnchor? || c.Activate?) && c.now != Zero && c.finalNow != Zero
    ensures Ticking(c) && OnOneRecord(c) && Target(c) == c.id
  {
  }
}
