/**
 The cell of a session recovered after a restart: a lease and a handle, no runtime. Its `revoke` gives up the revoking
 flag together with the lease, before it destroys the lease, which the cell of an initial session does not.
 */
module RecoverySessions {

  datatype Lease = InCell | Taken | Dying | Gone

  datatype Revoker = Idle | Transport | Finishing(ok: bool) | Cleaning | CleaningDying

  datatype Destroyer = NoDestroyer | Dropping | DroppingDying | Dropped

  datatype Cell = Cell(
    active: bool, revoking: bool, revokeErr: bool, lease: Lease, leaseRevoking: bool, leaseDestroys: nat,
    revoker: Revoker, destroyer: Destroyer, transportOk: bool, succeeded: bool)

  const Fresh := Cell(true, false, false, InCell, false, 0, Idle, NoDestroyer, false, false)

  datatype Label =
    | RevokeStart | TransportReturn(ok: bool) | RevokeFinish | CleanStart | CleanEnd
    | DestroyTake | DestroyStart | DestroyEnd

  predicate Enabled(c: Cell, l: Label) {
    match l
    case RevokeStart => c.active && !c.revoking && !c.revokeErr
    case TransportReturn(_) => c.revoker == Transport
    case RevokeFinish => c.revoker.Finishing?
    case CleanStart => c.revoker == Cleaning
    case CleanEnd => c.revoker == CleaningDying
    case DestroyTake => c.active && !c.revoking
    case DestroyStart => c.destroyer == Dropping
    case DestroyEnd => c.destroyer == DroppingDying
  }

  function Next(c: Cell, l: Label): Cell
    requires Enabled(c, l)
  {
    match l
    case RevokeStart => c.(revoking := true, leaseRevoking := true, revoker := Transport)
    case TransportReturn(ok) => c.(leaseRevoking := false, revoker := Finishing(ok))
    case RevokeFinish =>
      if c.revoker.ok then c.(revoking := false, active := false, lease := Taken, transportOk := true, revoker := Cleaning)
      else c.(revoking := false, revokeErr := true, revoker := Idle)
    case CleanStart => c.(lease := Dying, leaseDestroys := c.leaseDestroys + 1, revoker := CleaningDying)
    case CleanEnd => c.(lease := Gone, succeeded := true, revoker := Idle)
    case DestroyTake => c.(active := false, lease := Taken, destroyer := Dropping)
    case DestroyStart => c.(lease := Dying, leaseDestroys := c.leaseDestroys + 1, destroyer := DroppingDying)
    case DestroyEnd => c.(lease := Gone, destroyer := Dropped)
  }

  predicate Inv(c: Cell) {
    && (c.revoking <==> c.revoker == Transport || c.revoker.Finishing?) && (c.leaseRevoking <==> c.revoker == Transport)
    && (c.active <==> c.lease == InCell) && (c.revoking ==> c.active)
    && (c.active ==> c.destroyer == NoDestroyer && !c.succeeded && (c.revoker == Idle || c.revoking))
    && (c.lease == Taken <==> c.revoker == Cleaning || c.destroyer == Dropping)
    && (c.lease == Dying <==> c.revoker == CleaningDying || c.destroyer == DroppingDying)
    && (c.lease == Gone <==> c.succeeded || c.destroyer == Dropped)
    && (c.revoker == Cleaning || c.revoker == CleaningDying || c.succeeded ==> c.destroyer == NoDestroyer && c.transportOk)
    && (c.succeeded ==> c.revoker == Idle)
    && c.leaseDestroys == (if c.lease == Dying || c.lease == Gone then 1 else 0)
  }

  lemma StepKeeps(c: Cell, l: Label)
    requires Inv(c) && Enabled(c, l)
    ensures Inv(Next(c, l))
  {
  }

  predicate Legal(c: Cell, ls: seq<Label>)
    decreases |ls|
  {
    |ls| > 0 ==> Enabled(c, ls[0]) && Legal(Next(c, ls[0]), ls[1..])
  }

  function Run(c: Cell, ls: seq<Label>): Cell
    requires Legal(c, ls)
    decreases |ls|
  {
    if |ls| == 0 then c else Run(Next(c, ls[0]), ls[1..])
  }

  lemma {:induction false} RunKeeps(c: Cell, ls: seq<Label>)
    requires Inv(c) && Legal(c, ls)
    ensures Inv(Run(c, ls))
    decreases |ls|
  {
    hide Inv, Enabled, Next;
    if |ls| > 0 {
      StepKeeps(c, ls[0]);
      RunKeeps(Next(c, ls[0]), ls[1..]);
    }
  }

  /**
   Over every interleaving the lease is destroyed at most once, never while the transport revokes it, and exactly once
   when the cell is closed and everybody has left; a Revoke that succeeds has revoked and destroyed it.
   */
  lemma LeaseHasOneOwner(ls: seq<Label>)
    requires Legal(Fresh, ls)
    ensures var c := Run(Fresh, ls);
            && c.leaseDestroys <= 1 && (c.leaseDestroys == 1 ==> !c.leaseRevoking)
            && (!c.active && c.revoker == Idle && c.destroyer != Dropping && c.destroyer != DroppingDying ==> c.lease == Gone)
            && (c.succeeded ==> c.transportOk && c.lease == Gone && !c.active)
  {
    RunKeeps(Fresh, ls);
    hide Run;
  }

  /**
   A `destroy` call that finds the cell closed and nobody revoking returns. The lease is then destroyed exactly if neither
   a revocation that has succeeded nor another `destroy` call is still at it: the flag does not cover that part.
   */
  lemma DestroyReturnsWhen(ls: seq<Label>)
    requires Legal(Fresh, ls) && !Run(Fresh, ls).active && !Run(Fresh, ls).revoking
    ensures var c := Run(Fresh, ls);
            c.lease == Gone <==> c.revoker == Idle && c.destroyer != Dropping && c.destroyer != DroppingDying
  {
    RunKeeps(Fresh, ls);
    hide Run;
  }

  /**
   It does happen that a `destroy` call returns while the lease is alive: a revocation succeeds, and the call comes before
   its clean-up; or another `destroy` call has just taken the lease.
   */
  lemma DestroyMayReturnEarly()
    ensures var ls := [RevokeStart, TransportReturn(true), RevokeFinish];
            Legal(Fresh, ls) && !Run(Fresh, ls).active && !Run(Fresh, ls).revoking && Run(Fresh, ls).lease == Taken
    ensures var ls := [DestroyTake];
            Legal(Fresh, ls) && !Run(Fresh, ls).active && !Run(Fresh, ls).revoking && Run(Fresh, ls).lease == Taken
  {
    assert [DestroyTake][1..] == [];
    var ls := [RevokeStart, TransportReturn(true), RevokeFinish];
    assert ls[1..] == [TransportReturn(true), RevokeFinish] && ls[1..][1..] == [RevokeFinish] && ls[1..][1..][1..] == [];
    var a := Next(Fresh, RevokeStart);
    var b := Next(a, TransportReturn(true));
    assert Legal(b, [RevokeFinish]) && Run(b, [RevokeFinish]) == Next(b, RevokeFinish);
    assert Legal(a, ls[1..]);
  }

  lemma StepStaysClosed(c: Cell, l: Label)
    requires Inv(c) && Enabled(c, l) && !c.active && !c.revoking
    ensures !Next(c, l).active && !Next(c, l).revoking
  {
  }

  /** What a `destroy` call found when it returned stays so: an authority that has gone through all its cells leaves all closed. */
  lemma {:induction false} ClosedStays(c: Cell, ls: seq<Label>)
    requires Inv(c) && Legal(c, ls) && !c.active && !c.revoking
    ensures !Run(c, ls).active && !Run(c, ls).revoking
    decreases |ls|
  {
    hide Inv, Enabled, Next;
    if |ls| > 0 {
      StepKeeps(c, ls[0]);
      StepStaysClosed(c, ls[0]);
      ClosedStays(Next(c, ls[0]), ls[1..]);
    }
  }

  // ---------------------------------------------------------------- the work left in a cell

  predicate ByRevoker(l: Label) {
    l.TransportReturn? || l.RevokeFinish? || l.CleanStart? || l.CleanEnd?
  }

  predicate ByDestroyer(l: Label) {
    l.DestroyStart? || l.DestroyEnd?
  }

  predicate Spent(c: Cell) {
    !c.active || c.revokeErr
  }

  function RevokeLeft(c: Cell): nat {
    match c.revoker
    case Idle => if Spent(c) then 0 else 5
    case Transport => 4
    case Finishing(_) => 3
    case Cleaning => 2
    case CleaningDying => 1
  }

  function Left(c: Cell): nat {
    RevokeLeft(c) + if c.active then 3 else if c.destroyer == Dropping then 2 else if c.destroyer == DroppingDying then 1 else 0
  }

  lemma StepFalls(c: Cell, l: Label)
    requires Inv(c) && Enabled(c, l)
    ensures Left(Next(c, l)) < Left(c)
    ensures Spent(c) || (c.revoking && !Next(c, l).revoking) ==> Spent(Next(c, l))
    ensures Next(c, l).revoking && !c.revoking ==> !Spent(c)
  {
  }

  /** A next step of one at work. */
  function RevokerMove(r: Revoker): (l: Label)
    ensures ByRevoker(l)
  {
    match r
    case Transport => TransportReturn(true)
    case Finishing(_) => RevokeFinish
    case Cleaning => CleanStart
    case _ => CleanEnd
  }

  function DestroyerMove(d: Destroyer): (l: Label)
    ensures ByDestroyer(l)
  {
    if d == Dropping then DestroyStart else DestroyEnd
  }
}
