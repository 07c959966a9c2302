/**
 One attempt cell and everybody who may touch its runtime: the opener, the callback that resolves the
 initial runtime, callers that revoke and callers that destroy. A locked section is one step; a call made outside the
 locks - the callback, Revoke and Destroy on the lifecycle, Revoke on the transport, Destroy on the lease - is one step
 that starts it and one that ends it. A run is any interleaving.

 The lifecycle handed over by the callback must have one owner at every instant. `place` records that
 owner; a lifecycle nobody holds any more, without having been destroyed, would be `Lost`.
 */
module AttemptSessions {

  /** From `Dying` on Destroy has been called; the lifecycle is `Gone` when it has returned. */
  datatype Place = NoLife | WithResolver | InBound | WithOpener | InCell | WithRevoker | WithDestroyer | Dying | Gone | Lost

  datatype Lease = LeaseInCell | LeaseTaken | LeaseDying | LeaseGone

  /** `OpenSession`, once the cell is installed. */
  datatype Opener = Factory | Failing | Consuming(genuine: bool) | Installing
    | Releasing | ReleaseRevoking | ReleaseRevoked | ReleaseDying | Finished

  /** `ResolveRuntime`; the `used` flag admits one caller. */
  datatype Resolver = Unused | Resolving | Returned | Rejected(handed: bool) | DropRevoking | Dropped | DropDying | Invalidating | Settled

  /** `revoke`; the `revoking` flag admits one caller at a time. */
  datatype Revoker = Idle | Transport | Looking | Lifecycle | Finishing(lifecycleOk: bool)
    | CleanLife | CleanLifeDying | CleanLease | CleanLeaseDying | Last

  /** `destroy`, by the handle or by the authority; clearing `active` admits one caller. */
  datatype Destroyer = NoDestroyer | DropLife | DropLifeDying | DropLease | DropLeaseDying | DestroyedAll

  /** The request that OpenSession hands to the factory, and who stands where in OpenSession and ResolveRuntime. */
  datatype Opening = Opening(requestActive: bool, used: bool, bound: bool, opener: Opener, resolver: Resolver)

  /** The cell as its callers see it under the lock; `succeeded` and `transportOk` only record what happened. */
  datatype Calls = Calls(
    active: bool, revoking: bool, revokeErr: bool, revoker: Revoker, destroyer: Destroyer,
    lease: Lease, leaseRevoking: bool, leaseDestroys: nat, transportOk: bool, succeeded: bool)

  /** The lifecycle: its owner, the Revoke calls running on it, the Destroy calls made, and what happened to it. */
  datatype Life = Life(place: Place, revoking: nat, destroys: nat, installed: bool, revoked: bool)

  datatype Cell = Cell(open: Opening, calls: Calls, life: Life)

  const Fresh := Cell(Opening(true, false, false, Factory, Unused),
                      Calls(true, false, false, Idle, NoDestroyer, LeaseInCell, false, 0, false, false),
                      Life(NoLife, 0, 0, false, false))

  datatype Label =
    | ResolveStart | ResolveReturn(handed: bool, good: bool) | ResolveBind
    | DropRevokeStart | DropRevokeEnd | DropDestroyStart | DropDestroyEnd | ResolverInvalidate
    | FactoryReturn(failed: bool, genuine: bool) | OpenerInvalidate | OpenerConsume | OpenerInstall(matches: bool)
    | ReleaseRevokeStart | ReleaseRevokeEnd | ReleaseDestroyStart | ReleaseDestroyEnd
    | RevokeStart | TransportReturn(ok: bool) | LifecycleLook | LifecycleReturn(ok: bool) | RevokeFinish
    | CleanLifeStart | CleanLifeEnd | CleanLeaseStart | CleanLeaseEnd | RevokeDone
    | DestroyTake | DestroyLifeStart | DestroyLifeEnd | DestroyLeaseStart | DestroyLeaseEnd

  predicate Enabled(c: Cell, l: Label) {
    match l
    case ResolveStart => c.open.requestActive && !c.open.used && !c.open.bound && c.open.resolver == Unused
    case ResolveReturn(handed, good) => c.open.resolver == Resolving && (good ==> handed)
    case ResolveBind => c.open.resolver == Returned
    case DropRevokeStart => c.open.resolver == Rejected(true)
    case DropRevokeEnd => c.open.resolver == DropRevoking
    case DropDestroyStart => c.open.resolver == Dropped
    case DropDestroyEnd => c.open.resolver == DropDying
    case ResolverInvalidate => c.open.resolver == Invalidating || c.open.resolver == Rejected(false)
    case FactoryReturn(_, _) => c.open.opener == Factory
    case OpenerInvalidate => c.open.opener == Failing
    case OpenerConsume => c.open.opener.Consuming?
    case OpenerInstall(_) => c.open.opener == Installing
    case ReleaseRevokeStart => c.open.opener == Releasing
    case ReleaseRevokeEnd => c.open.opener == ReleaseRevoking
    case ReleaseDestroyStart => c.open.opener == ReleaseRevoked
    case ReleaseDestroyEnd => c.open.opener == ReleaseDying
    // The handle is published only when OpenSession returns.
    case RevokeStart => c.open.opener == Finished && c.calls.active && !c.calls.revoking && !c.calls.revokeErr
    case TransportReturn(_) => c.calls.revoker == Transport
    case LifecycleLook => c.calls.revoker == Looking
    case LifecycleReturn(_) => c.calls.revoker == Lifecycle
    case RevokeFinish => c.calls.revoker.Finishing?
    case CleanLifeStart => c.calls.revoker == CleanLife
    case CleanLifeEnd => c.calls.revoker == CleanLifeDying
    case CleanLeaseStart => c.calls.revoker == CleanLease
    case CleanLeaseEnd => c.calls.revoker == CleanLeaseDying
    case RevokeDone => c.calls.revoker == Last
    // The authority's Destroy waits for OpenSession through its WaitGroup.
    case DestroyTake => c.open.opener == Finished && c.calls.active && !c.calls.revoking
    case DestroyLifeStart => c.calls.destroyer == DropLife
    case DestroyLifeEnd => c.calls.destroyer == DropLifeDying
    case DestroyLeaseStart => c.calls.destroyer == DropLease
    case DestroyLeaseEnd => c.calls.destroyer == DropLeaseDying
  }

  predicate ByRevoker(l: Label) {
    || l.TransportReturn? || l.LifecycleLook? || l.LifecycleReturn? || l.RevokeFinish? || l.CleanLifeStart? || l.CleanLifeEnd?
    || l.CleanLeaseStart? || l.CleanLeaseEnd? || l.RevokeDone?
  }

  predicate ByDestroyer(l: Label) {
    l.DestroyLifeStart? || l.DestroyLifeEnd? || l.DestroyLeaseStart? || l.DestroyLeaseEnd?
  }

  /** Steps of `revoke` and `destroy`; the others are those of OpenSession and ResolveRuntime. */
  predicate ByCaller(l: Label) {
    l.RevokeStart? || l.DestroyTake? || ByRevoker(l) || ByDestroyer(l)
  }

  /** `invalidateInitialRuntimeState` for the opener, which keeps what it returns. */
  function Invalidated(c: Cell): Cell {
    var o := c.open.(requestActive := false, bound := false);
    if c.open.bound then Cell(o.(opener := Releasing), c.calls, c.life.(place := WithOpener)) else c.(open := o.(opener := Finished))
  }

  function RevokeBegins(f: Life): Life {
    f.(revoking := f.revoking + 1)
  }

  function RevokeEnds(f: Life): Life {
    f.(revoking := if f.revoking > 0 then f.revoking - 1 else 0)
  }

  function DestroyBegins(f: Life): Life {
    f.(place := Dying, destroys := f.destroys + 1)
  }

  function DestroyEnds(f: Life): Life {
    f.(place := Gone)
  }

  function LeaseBegins(k: Calls): Calls {
    k.(lease := LeaseDying, leaseDestroys := k.leaseDestroys + 1)
  }

  function LeaseEnds(k: Calls): Calls {
    k.(lease := LeaseGone)
  }

  /** A step of OpenSession or ResolveRuntime. */
  function RuntimeNext(c: Cell, l: Label): (n: Cell)
    requires Enabled(c, l) && !ByCaller(l)
    ensures n.calls == c.calls && (c.open.opener == Finished ==> n.open.opener == Finished)
  {
    var o, f := c.open, c.life;
    match l
    case ResolveStart => c.(open := o.(used := true, resolver := Resolving))
    case ResolveReturn(handed, good) =>
      c.(open := o.(resolver := if good then Returned else Rejected(handed)), life := f.(place := if handed then WithResolver else f.place))
    case ResolveBind =>
      if o.requestActive && o.used && !o.bound then c.(open := o.(bound := true, resolver := Settled), life := f.(place := InBound))
      else c.(open := o.(resolver := Rejected(true)))
    case DropRevokeStart => c.(open := o.(resolver := DropRevoking), life := RevokeBegins(f))
    case DropRevokeEnd => c.(open := o.(resolver := Dropped), life := RevokeEnds(f))
    case DropDestroyStart => c.(open := o.(resolver := DropDying), life := DestroyBegins(f))
    case DropDestroyEnd => c.(open := o.(resolver := Invalidating), life := DestroyEnds(f))
    case ResolverInvalidate =>
      // The result of this invalidation is thrown away: whatever was bound would be lost.
      c.(open := o.(requestActive := false, bound := false, resolver := Settled), life := f.(place := if o.bound then Lost else f.place))
    case FactoryReturn(failed, genuine) => c.(open := o.(opener := if failed then Failing else Consuming(genuine)))
    case OpenerInvalidate => Invalidated(c)
    case OpenerConsume =>
      if o.requestActive && o.used && o.bound && o.opener.genuine
      then c.(open := o.(requestActive := false, bound := false, opener := Installing), life := f.(place := WithOpener))
      else Invalidated(c)
    case OpenerInstall(matches) =>
      if c.calls.active && matches then c.(open := o.(opener := Finished), life := f.(place := InCell, installed := true))
      else c.(open := o.(opener := Releasing))
    case ReleaseRevokeStart => c.(open := o.(opener := ReleaseRevoking), life := RevokeBegins(f))
    case ReleaseRevokeEnd => c.(open := o.(opener := ReleaseRevoked), life := RevokeEnds(f))
    case ReleaseDestroyStart => c.(open := o.(opener := ReleaseDying), life := DestroyBegins(f))
    case ReleaseDestroyEnd => c.(open := o.(opener := Finished), life := DestroyEnds(f))
  }

  /** A step of `revoke` or `destroy`. */
  function CallerNext(c: Cell, l: Label): (n: Cell)
    requires Enabled(c, l) && ByCaller(l)
    ensures n.open == c.open
  {
    var k, f := c.calls, c.life;
    var own := f.place == InCell;
    match l
    case RevokeStart => c.(calls := k.(revoking := true, revoker := Transport, leaseRevoking := true))
    case TransportReturn(ok) => c.(calls := k.(transportOk := ok, leaseRevoking := false, revoker := Looking))
    case LifecycleLook =>
      if own then c.(calls := k.(revoker := Lifecycle), life := RevokeBegins(f)) else c.(calls := k.(revoker := Finishing(true)))
    case LifecycleReturn(ok) => c.(calls := k.(revoker := Finishing(ok)), life := RevokeEnds(f).(revoked := ok))
    case RevokeFinish =>
      if k.transportOk && k.revoker.lifecycleOk
      then c.(calls := k.(active := false, lease := LeaseTaken, revoker := if own then CleanLife else CleanLease),
              life := f.(place := if own then WithRevoker else f.place))
      else c.(calls := k.(revokeErr := true, revoking := false, revoker := Idle))
    case CleanLifeStart => c.(calls := k.(revoker := CleanLifeDying), life := DestroyBegins(f))
    case CleanLifeEnd => c.(calls := k.(revoker := CleanLease), life := DestroyEnds(f))
    case CleanLeaseStart => c.(calls := LeaseBegins(k).(revoker := CleanLeaseDying))
    case CleanLeaseEnd => c.(calls := LeaseEnds(k).(revoker := Last))
    case RevokeDone => c.(calls := k.(revoking := false, succeeded := true, revoker := Idle))
    case DestroyTake =>
      c.(calls := k.(active := false, lease := LeaseTaken, destroyer := if own then DropLife else DropLease),
         life := f.(place := if own then WithDestroyer else f.place))
    case DestroyLifeStart => c.(calls := k.(destroyer := DropLifeDying), life := DestroyBegins(f))
    case DestroyLifeEnd => c.(calls := k.(destroyer := DropLease), life := DestroyEnds(f))
    case DestroyLeaseStart => c.(calls := LeaseBegins(k).(destroyer := DropLeaseDying))
    case DestroyLeaseEnd => c.(calls := LeaseEnds(k).(destroyer := DestroyedAll))
  }

  function Next(c: Cell, l: Label): (n: Cell)
    requires Enabled(c, l)
    ensures !ByCaller(l) ==> n.calls == c.calls
    ensures c.open.opener == Finished ==> n.open.opener == Finished
  {
    if ByCaller(l) then CallerNext(c, l) else RuntimeNext(c, l)
  }

  // ---------------------------------------------------------------- the invariant

  predicate Cleaning(r: Revoker) {
    r == CleanLife || r == CleanLifeDying || r == CleanLease || r == CleanLeaseDying || r == Last
  }

  predicate Destroying(d: Destroyer) {
    d != NoDestroyer && d != DestroyedAll
  }

  /** Who holds the lifecycle follows from where everybody stands. */
  predicate OneOwner(c: Cell) {
    && c.life.place != Lost && c.life.destroys == (if c.life.place == Gone || c.life.place == Dying then 1 else 0)
    && (c.life.place == WithResolver <==>
          c.open.resolver == Returned || c.open.resolver == Rejected(true) || c.open.resolver == DropRevoking || c.open.resolver == Dropped)
    && (c.life.place == InBound <==> c.open.bound)
    && (c.life.place == WithOpener <==>
          c.open.opener == Installing || c.open.opener == Releasing || c.open.opener == ReleaseRevoking || c.open.opener == ReleaseRevoked)
    && (c.life.place == InCell ==> c.calls.active && c.life.installed)
    && (c.life.place == WithRevoker <==> c.calls.revoker == CleanLife)
    && (c.life.place == WithDestroyer <==> c.calls.destroyer == DropLife)
    && (c.life.place == Dying <==>
          c.open.resolver == DropDying || c.open.opener == ReleaseDying || c.calls.revoker == CleanLifeDying || c.calls.destroyer == DropLifeDying)
    && (c.open.resolver == Unused || c.open.resolver == Resolving || c.open.resolver == Rejected(false) ==> c.life.place == NoLife)
    && (c.open.resolver == Invalidating ==> c.life.place == Gone)
  }

  /** A Revoke runs on the lifecycle exactly while one of its owners is inside it. */
  predicate OneRevoke(c: Cell) {
    c.life.revoking == if c.open.resolver == DropRevoking || c.open.opener == ReleaseRevoking || c.calls.revoker == Lifecycle then 1 else 0
  }

  predicate RequestOk(c: Cell) {
    && (c.open.used <==> c.open.resolver != Unused)
    && (c.open.bound ==> c.open.requestActive && c.open.resolver == Settled)
    && (c.open.opener != Factory && c.open.opener != Failing && !c.open.opener.Consuming? ==> !c.open.requestActive)
    && (c.life.installed ==>
          && c.open.opener == Finished && c.open.resolver == Settled
          && (c.life.place == InCell || c.life.place == WithRevoker || c.life.place == WithDestroyer || c.life.place == Dying || c.life.place == Gone))
    && (c.open.opener == Installing || c.open.opener == Releasing || c.open.opener == ReleaseRevoking || c.open.opener == ReleaseRevoked || c.open.opener == ReleaseDying ==>
          c.open.resolver == Settled)
    && (c.open.resolver == DropDying ==> c.life.place == Dying && c.open.opener != ReleaseDying && !c.life.installed)
  }

  predicate CellOk(c: Cell) {
    && (c.calls.revoking <==> c.calls.revoker != Idle) && (c.calls.leaseRevoking <==> c.calls.revoker == Transport)
    && (c.open.opener != Finished ==> c.calls.active && !c.calls.revoking && c.calls.destroyer == NoDestroyer)
    && (c.calls.revoker != Idle && !Cleaning(c.calls.revoker) ==> c.calls.active)
    && (Cleaning(c.calls.revoker) ==> !c.calls.active && c.calls.destroyer == NoDestroyer)
    && (c.calls.active ==> c.calls.destroyer == NoDestroyer && !c.calls.succeeded && c.calls.lease == LeaseInCell)
    && (c.calls.lease == LeaseInCell ==> c.calls.active)
    && (c.calls.lease == LeaseTaken <==>
          c.calls.revoker == CleanLife || c.calls.revoker == CleanLifeDying || c.calls.revoker == CleanLease
          || c.calls.destroyer == DropLife || c.calls.destroyer == DropLifeDying || c.calls.destroyer == DropLease)
    && (c.calls.lease == LeaseDying <==> c.calls.revoker == CleanLeaseDying || c.calls.destroyer == DropLeaseDying)
    && c.calls.leaseDestroys == (if c.calls.lease == LeaseGone || c.calls.lease == LeaseDying then 1 else 0)
    && (c.calls.active && c.life.installed ==> c.life.place == InCell)
    && (c.calls.revoker == Lifecycle ==> c.life.place == InCell)
    && (c.calls.revoker == CleanLife || c.calls.revoker == CleanLifeDying || c.calls.destroyer == DropLife || c.calls.destroyer == DropLifeDying ==> c.life.installed)
    && (c.calls.revoker == CleanLease || c.calls.revoker == CleanLeaseDying || c.calls.revoker == Last || c.calls.succeeded ==> (c.life.installed ==> c.life.place == Gone))
    && (c.calls.destroyer == DropLease || c.calls.destroyer == DropLeaseDying || c.calls.destroyer == DestroyedAll ==> (c.life.installed ==> c.life.place == Gone))
    && (c.calls.revoker.Finishing? && c.calls.revoker.lifecycleOk && c.life.installed ==> c.life.revoked)
    && (Cleaning(c.calls.revoker) || c.calls.succeeded ==> c.calls.transportOk && (c.life.installed ==> c.life.revoked))
    && (c.calls.succeeded ==> c.calls.destroyer == NoDestroyer && c.calls.revoker == Idle)
    && (Destroying(c.calls.destroyer) || c.calls.destroyer == DestroyedAll ==> c.calls.revoker == Idle)
    && (!c.calls.active && c.calls.revoker == Idle ==> c.calls.succeeded || c.calls.destroyer != NoDestroyer)
  }

  predicate Inv(c: Cell) {
    OneOwner(c) && OneRevoke(c) && RequestOk(c) && CellOk(c)
  }

  lemma ResolveKeeps(c: Cell, l: Label)
    requires Inv(c) && Enabled(c, l) && (l.ResolveStart? || l.ResolveReturn? || l.ResolveBind? || l.ResolverInvalidate?)
    ensures Inv(Next(c, l))
  {
  }

  lemma DropKeeps(c: Cell, l: Label)
    requires Inv(c) && Enabled(c, l) && (l.DropRevokeStart? || l.DropRevokeEnd? || l.DropDestroyStart? || l.DropDestroyEnd?)
    ensures Inv(Next(c, l))
  {
  }

  lemma OpenKeeps(c: Cell, l: Label)
    requires Inv(c) && Enabled(c, l) && (l.FactoryReturn? || l.OpenerInvalidate? || l.OpenerConsume?)
    ensures Inv(Next(c, l))
  {
  }

  lemma InstallKeeps(c: Cell, l: Label)
    requires Inv(c) && Enabled(c, l) && (l.OpenerInstall?)
    ensures Inv(Next(c, l))
  {
  }

  lemma ReleaseKeeps(c: Cell, l: Label)
    requires Inv(c) && Enabled(c, l) && (l.ReleaseRevokeStart? || l.ReleaseRevokeEnd?)
    ensures Inv(Next(c, l))
  {
  }

  lemma ReleaseDestroyKeeps(c: Cell, l: Label)
    requires Inv(c) && Enabled(c, l) && (l.ReleaseDestroyStart? || l.ReleaseDestroyEnd?)
    ensures Inv(Next(c, l))
  {
  }

  lemma TransportKeeps(c: Cell, l: Label)
    requires Inv(c) && Enabled(c, l) && (l.RevokeStart? || l.TransportReturn?)
    ensures Inv(Next(c, l))
  {
  }

  lemma LifecycleKeeps(c: Cell, l: Label)
    requires Inv(c) && Enabled(c, l) && (l.LifecycleLook? || l.LifecycleReturn?)
    ensures Inv(Next(c, l))
  {
    hide Inv, Enabled, Next;
    LifecycleKeepsOwner(c, l);
    LifecycleKeepsCell(c, l);
    AllParts(Next(c, l));
  }

  lemma LifecycleKeepsOwner(c: Cell, l: Label)
    requires Inv(c) && Enabled(c, l) && (l.LifecycleLook? || l.LifecycleReturn?)
    ensures OneOwner(Next(c, l)) && OneRevoke(Next(c, l)) && RequestOk(Next(c, l))
  {
  }

  lemma LifecycleKeepsCell(c: Cell, l: Label)
    requires Inv(c) && Enabled(c, l) && (l.LifecycleLook? || l.LifecycleReturn?)
    ensures CellOk(Next(c, l))
  {
  }

  lemma FinishKeeps(c: Cell, l: Label)
    requires Inv(c) && Enabled(c, l) && l.RevokeFinish?
    ensures Inv(Next(c, l))
  {
    hide Inv, Enabled, Next;
    FinishKeepsOwner(c, l);
    FinishKeepsCell(c, l);
    AllParts(Next(c, l));
  }

  lemma AllParts(c: Cell)
    requires OneOwner(c) && OneRevoke(c) && RequestOk(c) && CellOk(c)
    ensures Inv(c)
  {
    hide OneOwner, OneRevoke, RequestOk, CellOk;
  }

  lemma FinishKeepsOwner(c: Cell, l: Label)
    requires Inv(c) && Enabled(c, l) && l.RevokeFinish?
    ensures OneOwner(Next(c, l)) && OneRevoke(Next(c, l)) && RequestOk(Next(c, l))
  {
  }

  lemma FinishKeepsCell(c: Cell, l: Label)
    requires Inv(c) && Enabled(c, l) && l.RevokeFinish?
    ensures CellOk(Next(c, l))
  {
  }

  lemma CleanLifeKeeps(c: Cell, l: Label)
    requires Inv(c) && Enabled(c, l) && (l.CleanLifeStart? || l.CleanLifeEnd?)
    ensures Inv(Next(c, l))
  {
  }

  lemma CleanLeaseKeeps(c: Cell, l: Label)
    requires Inv(c) && Enabled(c, l) && (l.CleanLeaseStart? || l.CleanLeaseEnd? || l.RevokeDone?)
    ensures Inv(Next(c, l))
  {
  }

  lemma TakeKeeps(c: Cell, l: Label)
    requires Inv(c) && Enabled(c, l) && (l.DestroyTake?)
    ensures Inv(Next(c, l))
  {
  }

  lemma DestroyLifeKeeps(c: Cell, l: Label)
    requires Inv(c) && Enabled(c, l) && (l.DestroyLifeStart? || l.DestroyLifeEnd?)
    ensures Inv(Next(c, l))
  {
  }

  lemma DestroyLeaseKeeps(c: Cell, l: Label)
    requires Inv(c) && Enabled(c, l) && (l.DestroyLeaseStart? || l.DestroyLeaseEnd?)
    ensures Inv(Next(c, l))
  {
  }

  lemma StepKeeps(c: Cell, l: Label)
    requires Inv(c) && Enabled(c, l)
    ensures Inv(Next(c, l))
  {
    hide Inv, Enabled, Next;
    if l.ResolveStart? || l.ResolveReturn? || l.ResolveBind? || l.ResolverInvalidate? { ResolveKeeps(c, l); }
    else if l.DropRevokeStart? || l.DropRevokeEnd? || l.DropDestroyStart? || l.DropDestroyEnd? { DropKeeps(c, l); }
    else if l.FactoryReturn? || l.OpenerInvalidate? || l.OpenerConsume? { OpenKeeps(c, l); }
    else if l.OpenerInstall? { InstallKeeps(c, l); }
    else if l.ReleaseRevokeStart? || l.ReleaseRevokeEnd? { ReleaseKeeps(c, l); }
    else if l.ReleaseDestroyStart? || l.ReleaseDestroyEnd? { ReleaseDestroyKeeps(c, l); }
    else if l.RevokeStart? || l.TransportReturn? { TransportKeeps(c, l); }
    else if l.LifecycleLook? || l.LifecycleReturn? { LifecycleKeeps(c, l); }
    else if l.RevokeFinish? { FinishKeeps(c, l); }
    else if l.CleanLifeStart? || l.CleanLifeEnd? { CleanLifeKeeps(c, l); }
    else if l.CleanLeaseStart? || l.CleanLeaseEnd? || l.RevokeDone? { CleanLeaseKeeps(c, l); }
    else if l.DestroyTake? { TakeKeeps(c, l); }
    else if l.DestroyLifeStart? || l.DestroyLifeEnd? { DestroyLifeKeeps(c, l); }
    else { DestroyLeaseKeeps(c, l); }
  }

  predicate Legal(c: Cell, ls: seq<Label>)
    decreases |ls|
  {
    |ls| > 0 ==> Enabled(c, ls[0]) && Legal(Next(c, ls[0]), ls[1..])
  }

  function Run(c: Cell, ls: seq<Label>): Cell
    requires Legal(c, ls)
    decreases |ls|
  {
    if |ls| == 0 then c else Run(Next(c, ls[0]), ls[1..])
  }

  lemma {:induction false} RunKeeps(c: Cell, ls: seq<Label>)
    requires Inv(c) && Legal(c, ls)
    ensures Inv(Run(c, ls))
    decreases |ls|
  {
    hide Inv, Enabled, Next;
    if |ls| > 0 {
      StepKeeps(c, ls[0]);
      RunKeeps(Next(c, ls[0]), ls[1..]);
    }
  }

  // ---------------------------------------------------------------- what every interleaving guarantees

  /** Nobody is inside any of the four operations. */
  predicate AtRest(c: Cell) {
    && c.open.opener == Finished && (c.open.resolver == Unused || c.open.resolver == Settled)
    && c.calls.revoker == Idle && !Destroying(c.calls.destroyer)
  }

  /** The lifecycle, if there ever was one, and the lease have been destroyed, and the calls have returned. */
  predicate AllGone(c: Cell) {
    (c.life.place == NoLife || c.life.place == Gone) && c.calls.lease == LeaseGone
  }

  /**
   Over every interleaving the lifecycle is never lost; Destroy is called on it at most once, never while Revoke runs on
   it, and Revoke never twice at a time. The same holds of the lease and the transport's Revoke. Once everybody has left
   and the cell is closed, both are destroyed; while the cell is open, an installed lifecycle is the cell's own.
   */
  lemma LifecycleHasOneOwner(ls: seq<Label>)
    requires Legal(Fresh, ls)
    ensures var c := Run(Fresh, ls);
            && c.life.place != Lost && c.life.destroys <= 1 && c.calls.leaseDestroys <= 1 && c.life.revoking <= 1
            && (c.life.destroys == 1 <==> c.life.place == Dying || c.life.place == Gone)
            && (c.life.destroys == 1 ==> c.life.revoking == 0) && (c.calls.leaseDestroys == 1 ==> !c.calls.leaseRevoking)
            && (AtRest(c) && !c.calls.active ==> AllGone(c) && c.calls.leaseDestroys == 1)
            && (AtRest(c) && c.calls.active ==> c.life.place == NoLife || c.life.place == InCell || c.life.place == Gone)
  {
    RunKeeps(Fresh, ls);
    hide Run;
  }

  /** A Revoke that succeeds has revoked the transport lease and the lifecycle, if one was installed, and has seen both destroyed. */
  lemma SuccessMeansBothRevoked(ls: seq<Label>)
    requires Legal(Fresh, ls) && Run(Fresh, ls).calls.succeeded
    ensures var c := Run(Fresh, ls);
            c.calls.transportOk && (c.life.installed ==> c.life.revoked && c.life.place == Gone) && c.calls.lease == LeaseGone && !c.calls.active
  {
    RunKeeps(Fresh, ls);
    hide Run;
  }

  /** A `destroy` call that finds the cell closed and nobody revoking has nothing to wait for and returns. */
  predicate DestroyReturns(c: Cell) {
    !c.calls.active && !c.calls.revoking
  }

  /**
   Such a call - by the handle, or by the authority as it shuts down - returns with lease and installed lifecycle
   destroyed exactly if no other `destroy` call is still at it: it waits for a revocation, but not for another destruction.
   */
  lemma DestroyReturnsWhen(ls: seq<Label>)
    requires Legal(Fresh, ls) && DestroyReturns(Run(Fresh, ls))
    ensures var c := Run(Fresh, ls);
            (c.calls.lease == LeaseGone && (c.life.installed ==> c.life.place == Gone)) <==> !Destroying(c.calls.destroyer)
  {
    RunKeeps(Fresh, ls);
    hide Run;
  }

  lemma Unfold(c: Cell, l: Label, ls: seq<Label>)
    requires Enabled(c, l) && Legal(Next(c, l), ls)
    ensures Legal(c, [l] + ls) && Run(c, [l] + ls) == Run(Next(c, l), ls)
  {
    hide Enabled, Next;
    assert ([l] + ls)[1..] == ls;
  }

  lemma FailureLeaves()
    ensures var a := Fresh.(open := Fresh.open.(opener := Failing));
            var b := Invalidated(a);
            && Enabled(Fresh, FactoryReturn(true, false)) && Next(Fresh, FactoryReturn(true, false)) == a
            && Enabled(a, OpenerInvalidate) && Next(a, OpenerInvalidate) == b
            && Enabled(b, DestroyTake) && DestroyReturns(Next(b, DestroyTake)) && Next(b, DestroyTake).calls.lease == LeaseTaken
  {
  }

  /** It does happen that a `destroy` call returns while the lease is alive: OpenSession has failed, and another call has just taken the lease. */
  lemma DestroyMayReturnEarly()
    ensures var ls := [FactoryReturn(true, false), OpenerInvalidate, DestroyTake];
            Legal(Fresh, ls) && DestroyReturns(Run(Fresh, ls)) && Run(Fresh, ls).calls.lease == LeaseTaken
  {
    hide Next, Enabled;
    FailureLeaves();
    var a := Fresh.(open := Fresh.open.(opener := Failing));
    var b := Invalidated(a);
    Unfold(b, DestroyTake, []);
    Unfold(a, OpenerInvalidate, [DestroyTake]);
    Unfold(Fresh, FactoryReturn(true, false), [OpenerInvalidate, DestroyTake]);
    assert [FactoryReturn(true, false), OpenerInvalidate, DestroyTake] == [FactoryReturn(true, false)] + [OpenerInvalidate, DestroyTake];
    assert [OpenerInvalidate, DestroyTake] == [OpenerInvalidate] + [DestroyTake] && [DestroyTake] == [DestroyTake] + [];
  }

  lemma StepStaysClosed(c: Cell, l: Label)
    requires Inv(c) && Enabled(c, l) && DestroyReturns(c)
    ensures DestroyReturns(Next(c, l))
  {
  }

  /** What a `destroy` call found when it returned stays so: an authority that has gone through all its cells leaves all closed. */
  lemma {:induction false} ClosedStays(c: Cell, ls: seq<Label>)
    requires Inv(c) && Legal(c, ls) && DestroyReturns(c)
    ensures DestroyReturns(Run(c, ls))
    decreases |ls|
  {
    hide Inv, Enabled, Next;
    if |ls| > 0 {
      StepKeeps(c, ls[0]);
      StepStaysClosed(c, ls[0]);
      ClosedStays(Next(c, ls[0]), ls[1..]);
    }
  }

  // ---------------------------------------------------------------- the work left in a cell

  /** No revocation will start any more: one has failed, whose error is kept, or the cell is closed. */
  predicate Spent(k: Calls) {
    !k.active || k.revokeErr
  }

  function RevokeLeft(k: Calls): nat {
    match k.revoker
    case Idle => if Spent(k) then 0 else 10
    case Transport => 9
    case Looking => 8
    case Lifecycle => 7
    case Finishing(_) => 6
    case CleanLife => 5
    case CleanLifeDying => 4
    case CleanLease => 3
    case CleanLeaseDying => 2
    case Last => 1
  }

  function DestroyLeft(k: Calls): nat {
    if k.active then 5
    else
      match k.destroyer
      case DropLife => 4
      case DropLifeDying => 3
      case DropLease => 2
      case DropLeaseDying => 1
      case _ => 0
  }

  /** How many steps can still be taken inside `revoke` and `destroy`, by all callers there will ever be. */
  function Left(k: Calls): nat {
    RevokeLeft(k) + DestroyLeft(k)
  }

  /** What a cell says about its callers. */
  predicate CallsOk(k: Calls) {
    && (k.revoking <==> k.revoker != Idle) && (k.active ==> k.destroyer == NoDestroyer) && (k.revoker.Finishing? ==> k.active)
    && (Cleaning(k.revoker) || Destroying(k.destroyer) ==> !k.active) && (!Destroying(k.destroyer) || k.revoker == Idle)
  }

  /** A revocation starts only in a cell that is not spent, and ends in one that is. */
  predicate Used(k: Calls, n: Calls) {
    (Spent(k) || (k.revoking && !n.revoking) ==> Spent(n)) && (n.revoking && !k.revoking ==> !Spent(k))
  }

  /**
   Every step of a caller of `revoke` or `destroy` uses up work, no other step adds any, and a cell in which a revocation
   has run sees no other one.
   */
  lemma CallerFalls(c: Cell, l: Label)
    requires CallsOk(c.calls) && Enabled(c, l) && ByCaller(l)
    ensures var k := Next(c, l).calls;
            Left(k) < Left(c.calls) && Used(c.calls, k)
  {
    if ByRevoker(l) { RevokerFalls(c, l); } else { DestroyerFalls(c, l); }
    hide Next, Enabled, CallsOk;
  }

  lemma RevokerFalls(c: Cell, l: Label)
    requires CallsOk(c.calls) && Enabled(c, l) && ByRevoker(l)
    ensures var k := Next(c, l).calls;
            Left(k) < Left(c.calls) && Used(c.calls, k)
  {
  }

  lemma DestroyerFalls(c: Cell, l: Label)
    requires CallsOk(c.calls) && Enabled(c, l) && ByCaller(l) && !ByRevoker(l)
    ensures var k := Next(c, l).calls;
            Left(k) < Left(c.calls) && Used(c.calls, k)
  {
  }

  /** A step of one at work does not move the other. */
  lemma OtherStays(c: Cell, l: Label)
    requires Enabled(c, l)
    ensures ByRevoker(l) ==> Next(c, l).calls.destroyer == c.calls.destroyer
    ensures ByDestroyer(l) ==> Next(c, l).calls.revoker == c.calls.revoker
  {
    hide Enabled;
  }

  lemma CellShowsCallers(c: Cell)
    requires Inv(c)
    ensures CallsOk(c.calls)
  {
    hide OneOwner, OneRevoke, RequestOk;
  }

  /** A next step of one at work. */
  function RevokerMove(r: Revoker): (l: Label)
    ensures ByRevoker(l)
  {
    match r
    case Transport => TransportReturn(true)
    case Looking => LifecycleLook
    case Lifecycle => LifecycleReturn(true)
    case Finishing(_) => RevokeFinish
    case CleanLife => CleanLifeStart
    case CleanLifeDying => CleanLifeEnd
    case CleanLease => CleanLeaseStart
    case CleanLeaseDying => CleanLeaseEnd
    case _ => RevokeDone
  }

  function DestroyerMove(d: Destroyer): (l: Label)
    ensures ByDestroyer(l)
  {
    match d
    case DropLife => DestroyLifeStart
    case DropLifeDying => DestroyLifeEnd
    case DropLease => DestroyLeaseStart
    case _ => DestroyLeaseEnd
  }

  lemma CallerGoesOn(c: Cell)
    ensures c.calls.revoker != Idle ==> Enabled(c, RevokerMove(c.calls.revoker))
    ensures Destroying(c.calls.destroyer) ==> Enabled(c, DestroyerMove(c.calls.destroyer))
  {
  }
}
