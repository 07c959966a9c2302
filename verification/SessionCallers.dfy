/**
 Any number of callers of `revoke` and `destroy` on one session cell, initial or recovered. A caller looks at the cell
 under its lock and then leaves, waits for the done channel of the revocation it found, or sets to work; who wakes up
 looks again. Runs are all interleavings of their steps with those of OpenSession and ResolveRuntime.
 */
module SessionCallers {
  import opened Options
  import A = AttemptSessions
  import R = RecoverySessions

  type Thread = nat

  datatype Cell = Initial(initial: A.Cell) | Recovered(recovered: R.Cell)

  datatype Purpose = Revoke | Destroy

  datatype Step = InitialStep(a: A.Label) | RecoveredStep(r: R.Label)

  // ---------------------------------------------------------------- what both cells have in common

  predicate Active(c: Cell) {
    if c.Initial? then c.initial.calls.active else c.recovered.active
  }

  predicate Revoking(c: Cell) {
    if c.Initial? then c.initial.calls.revoking else c.recovered.revoking
  }

  /** No revocation will start any more. */
  predicate Spent(c: Cell) {
    if c.Initial? then A.Spent(c.initial.calls) else R.Spent(c.recovered)
  }

  /** The handle has been given out, or the authority has waited for OpenSession. */
  predicate Published(c: Cell) {
    c.Initial? ==> c.initial.open.opener == A.Finished
  }

  predicate AtWork(c: Cell, p: Purpose) {
    if c.Initial? then if p == Revoke then c.initial.calls.revoker != A.Idle else A.Destroying(c.initial.calls.destroyer)
    else if p == Revoke then c.recovered.revoker != R.Idle
    else c.recovered.destroyer == R.Dropping || c.recovered.destroyer == R.DroppingDying
  }

  function Left(c: Cell): nat {
    if c.Initial? then A.Left(c.initial.calls) else R.Left(c.recovered)
  }

  predicate Sound(c: Cell) {
    if c.Initial? then A.Inv(c.initial) else R.Inv(c.recovered)
  }

  predicate Fits(c: Cell, m: Step) {
    if c.Initial? then m.InitialStep? && A.Enabled(c.initial, m.a) else m.RecoveredStep? && R.Enabled(c.recovered, m.r)
  }

  function Moved(c: Cell, m: Step): Cell
    requires Fits(c, m)
  {
    if c.Initial? then Initial(A.Next(c.initial, m.a)) else Recovered(R.Next(c.recovered, m.r))
  }

  /** The step lies inside `revoke`, or inside `destroy`, after the caller has set to work. */
  predicate Serves(m: Step, p: Purpose) {
    if m.InitialStep? then if p == Revoke then A.ByRevoker(m.a) else A.ByDestroyer(m.a)
    else if p == Revoke then R.ByRevoker(m.r) else R.ByDestroyer(m.r)
  }

  /** A step of OpenSession or ResolveRuntime. */
  predicate Background(m: Step) {
    m.InitialStep? && !A.ByCaller(m.a)
  }

  /** The step by which a caller sets to work. */
  function Start(c: Cell, p: Purpose): Step {
    if c.Initial? then InitialStep(if p == Revoke then A.RevokeStart else A.DestroyTake)
    else RecoveredStep(if p == Revoke then R.RevokeStart else R.DestroyTake)
  }

  /** Nothing for a `destroy` call to do or to wait for. */
  predicate Closed(c: Cell) {
    !Active(c) && !Revoking(c)
  }

  /** A revocation may still be under way when a caller looks. */
  predicate MayWait(c: Cell) {
    Revoking(c) || !Spent(c)
  }

  /** What a step does to the cell as its callers see it. */
  predicate Advances(c: Cell, n: Cell) {
    && Sound(n) && Left(n) <= Left(c) && (MayWait(n) ==> MayWait(c)) && (Revoking(c) && !Revoking(n) ==> Spent(n))
    && (Spent(c) ==> Spent(n)) && (Published(c) ==> Published(n)) && (Closed(c) ==> Closed(n))
  }

  lemma InitialAdvances(c: A.Cell, l: A.Label)
    requires A.Inv(c) && A.Enabled(c, l)
    ensures var x, n := Initial(c), Initial(A.Next(c, l));
            Advances(x, n) && (A.ByCaller(l) ==> Left(n) < Left(x)) && (!A.ByCaller(l) ==> n.initial.calls == c.calls)
  {
    hide A.Inv, A.Enabled, A.Next, A.CallsOk, A.Left, A.Spent, A.ByCaller;
    A.StepKeeps(c, l);
    A.CellShowsCallers(c);
    if A.ByCaller(l) { A.CallerFalls(c, l); }
    if Closed(Initial(c)) { A.StepStaysClosed(c, l); }
  }

  lemma RecoveredAdvances(c: R.Cell, l: R.Label)
    requires R.Inv(c) && R.Enabled(c, l)
    ensures var x, n := Recovered(c), Recovered(R.Next(c, l)); Advances(x, n) && Left(n) < Left(x)
  {
    hide R.Inv, R.Enabled, R.Next, R.Left, R.Spent;
    R.StepKeeps(c, l);
    R.StepFalls(c, l);
    if Closed(Recovered(c)) { R.StepStaysClosed(c, l); }
  }

  /** No step adds work for callers; their own steps use it up, and the other ones do not concern them. */
  lemma CellAdvances(c: Cell, m: Step)
    requires Sound(c) && Fits(c, m)
    ensures var n := Moved(c, m);
            Advances(c, n) && (!Background(m) ==> Left(n) < Left(c)) && (Background(m) ==> forall p :: AtWork(n, p) == AtWork(c, p))
  {
    hide A.Inv, A.Enabled, A.Next, R.Inv, R.Enabled, R.Next, A.ByCaller, Left, Advances;
    if c.Initial? { InitialAdvances(c.initial, m.a); } else { RecoveredAdvances(c.recovered, m.r); }
  }

  /** At most one caller is at work; somebody is while the cell says that it is revoking. */
  lemma OneAtWork(c: Cell)
    requires Sound(c)
    ensures !(AtWork(c, Revoke) && AtWork(c, Destroy)) && (Revoking(c) ==> AtWork(c, Revoke))
    ensures Active(c) ==> !AtWork(c, Destroy) && (AtWork(c, Revoke) ==> Revoking(c))
    ensures AtWork(c, Revoke) || AtWork(c, Destroy) ==> Left(c) > 0
  {
    if c.Initial? { A.CellShowsCallers(c.initial); }
    hide A.Inv;
  }

  lemma StartsWork(c: Cell, p: Purpose)
    requires Sound(c) && Published(c) && Active(c) && !Revoking(c) && (p == Revoke ==> !Spent(c))
    ensures Fits(c, Start(c, p)) && AtWork(Moved(c, Start(c, p)), p) && !Background(Start(c, p))
  {
    hide A.Inv, R.Inv;
  }

  /** Whoever is at work can take the next step. */
  lemma WorkGoesOn(c: Cell, p: Purpose) returns (m: Step)
    requires Sound(c) && AtWork(c, p)
    ensures Fits(c, m) && Serves(m, p)
  {
    hide A.Inv, R.Inv, A.Enabled, A.RevokerMove, A.DestroyerMove, A.ByRevoker, A.ByDestroyer, A.Destroying;
    if c.Initial? {
      var k := c.initial.calls;
      A.CallerGoesOn(c.initial);
      m := InitialStep(if p == Revoke then A.RevokerMove(k.revoker) else A.DestroyerMove(k.destroyer));
    } else {
      m := RecoveredStep(if p == Revoke then R.RevokerMove(c.recovered.revoker) else R.DestroyerMove(c.recovered.destroyer));
    }
  }

  // ---------------------------------------------------------------- callers

  datatype Pc = Looking(purpose: Purpose) | Waiting(purpose: Purpose) | Working(purpose: Purpose)

  /** `worker` only records who has set to work; no guard reads it. */
  datatype State = State(cell: Cell, callers: map<Thread, Pc>, worker: Option<Thread>)

  datatype Label =
    | Arrive(t: Thread, purpose: Purpose) | Look(t: Thread) | Wake(t: Thread) | WakeCanceled(t: Thread)
    | Work(t: Thread, m: Step) | Behind(m: Step)

  datatype Finding = Leaves | Waits | Starts

  /** What a caller finds under the lock. */
  function Find(c: Cell, p: Purpose): Finding {
    if p == Destroy then if Revoking(c) then Waits else if Active(c) then Starts else Leaves
    else if !Active(c) then Leaves
    else if Revoking(c) then Waits
    else if Spent(c) then Leaves
    else Starts
  }

  predicate Enabled(s: State, l: Label) {
    match l
    case Arrive(t, _) => t !in s.callers && Published(s.cell)
    case Look(t) => t in s.callers && s.callers[t].Looking?
    case Wake(t) => t in s.callers && s.callers[t].Waiting? && !Revoking(s.cell)
    // Only `revoke` has a context.
    case WakeCanceled(t) => t in s.callers && s.callers[t] == Waiting(Revoke)
    case Work(t, m) => t in s.callers && s.callers[t].Working? && Fits(s.cell, m) && Serves(m, s.callers[t].purpose)
    case Behind(m) => Fits(s.cell, m) && Background(m)
  }

  function Next(s: State, l: Label): State
    requires Enabled(s, l)
  {
    match l
    case Arrive(t, p) => s.(callers := s.callers[t := Looking(p)])
    case Look(t) =>
      var p := s.callers[t].purpose;
      var found := Find(s.cell, p);
      if found == Leaves then s.(callers := s.callers - {t})
      else if found == Waits then s.(callers := s.callers[t := Waiting(p)])
      else if Fits(s.cell, Start(s.cell, p)) then State(Moved(s.cell, Start(s.cell, p)), s.callers[t := Working(p)], Some(t))
      // Not reached, see StartsWork.
      else s
    case Wake(t) => s.(callers := s.callers[t := Looking(s.callers[t].purpose)])
    case WakeCanceled(t) => s.(callers := s.callers - {t})
    case Work(t, m) =>
      var n := Moved(s.cell, m);
      if AtWork(n, s.callers[t].purpose) then s.(cell := n) else State(n, s.callers - {t}, None)
    case Behind(m) => s.(cell := Moved(s.cell, m))
  }

  predicate CallerOk(s: State, t: Thread)
    requires t in s.callers
  {
    && (s.callers[t].Working? ==> s.worker == Some(t))
    && (s.callers[t].Waiting? ==> Revoking(s.cell) || Spent(s.cell))
  }

  predicate Inv(s: State) {
    && Sound(s.cell) && (forall t | t in s.callers :: CallerOk(s, t)) && (s.callers != map[] ==> Published(s.cell))
    && (if s.worker.None? then !AtWork(s.cell, Revoke) && !AtWork(s.cell, Destroy)
        else s.worker.value in s.callers && s.callers[s.worker.value].Working? && AtWork(s.cell, s.callers[s.worker.value].purpose))
  }

  lemma FreshCells()
    ensures Inv(State(Initial(A.Fresh), map[], None)) && Inv(State(Recovered(R.Fresh), map[], None))
  {
  }

  lemma OthersOk(s: State, n: State, t: Thread)
    requires Inv(s) && (n.cell == s.cell || Advances(s.cell, n.cell))
    requires forall u | u in n.callers && u != t :: u in s.callers && n.callers[u] == s.callers[u]
    requires forall u | u in n.callers && u != t && s.callers[u].Working? :: n.worker == s.worker
    requires t in n.callers ==> CallerOk(n, t)
    ensures forall u | u in n.callers :: CallerOk(n, u)
  {
    hide Sound, Revoking, Spent, Published, AtWork;
    forall u | u in n.callers && u != t ensures CallerOk(n, u) { assert CallerOk(s, u); }
  }

  lemma LookKeeps(s: State, l: Label)
    requires Inv(s) && Enabled(s, l) && l.Look?
    ensures Inv(Next(s, l))
  {
    var p, n := s.callers[l.t].purpose, Next(s, l);
    assert CallerOk(s, l.t) && s.callers != map[];
    OneAtWork(s.cell);
    if Find(s.cell, p) == Starts {
      StartsWork(s.cell, p);
      CellAdvances(s.cell, Start(s.cell, p));
    }
    hide Sound, Revoking, Spent, Published, AtWork, Active, Fits, Moved, Start, Background, Left;
    OthersOk(s, n, l.t);
  }

  lemma WorkKeeps(s: State, l: Label)
    requires Inv(s) && Enabled(s, l) && l.Work?
    ensures Inv(Next(s, l))
  {
    hide Sound, Revoking, Spent, Published, Active, Fits, Moved, Start, Background, Left, Serves;
    assert CallerOk(s, l.t) && s.callers != map[];
    CellAdvances(s.cell, l.m);
    WorkEnds(s.cell, l.m, s.callers[l.t].purpose);
    OthersOk(s, Next(s, l), l.t);
  }

  /** A step of one at work does not set another to work. */
  lemma WorkEnds(c: Cell, m: Step, p: Purpose)
    requires Sound(c) && Fits(c, m) && Serves(m, p) && AtWork(c, p)
    ensures var q := if p == Revoke then Destroy else Revoke; !AtWork(Moved(c, m), q)
  {
    OneAtWork(c);
    if c.Initial? { A.OtherStays(c.initial, m.a); }
    hide A.Inv, A.Next, A.Enabled;
  }

  lemma StepKeeps(s: State, l: Label)
    requires Inv(s) && Enabled(s, l)
    ensures Inv(Next(s, l))
  {
    if l.Look? { LookKeeps(s, l); }
    else if l.Work? { WorkKeeps(s, l); }
    else if l.Behind? {
      CellAdvances(s.cell, l.m);
      hide Sound, Revoking, Spent, Published, AtWork, Active, Fits, Moved, Background, Left;
      assert forall u | u in s.callers :: CallerOk(s, u);
      if u :| u in s.callers { OthersOk(s, Next(s, l), u); }
    } else {
      hide Sound, Revoking, Spent, Published, AtWork, Active;
      assert l.t in s.callers ==> CallerOk(s, l.t);
      OthersOk(s, Next(s, l), l.t);
    }
  }

  predicate Legal(s: State, ls: seq<Label>)
    decreases |ls|
  {
    |ls| > 0 ==> Enabled(s, ls[0]) && Legal(Next(s, ls[0]), ls[1..])
  }

  function Run(s: State, ls: seq<Label>): State
    requires Legal(s, ls)
    decreases |ls|
  {
    if |ls| == 0 then s else Run(Next(s, ls[0]), ls[1..])
  }

  // ---------------------------------------------------------------- nobody waits for ever

  /** A step that brings caller t nearer to its return: its own, or one of whoever is at work on the cell. */
  predicate Toil(s: State, l: Label, t: Thread) {
    t in s.callers && !l.Behind? && (l.t == t || s.worker == Some(l.t))
  }

  /** A caller that is inside can move, or whoever is at work can. */
  lemma CallerHasWork(s: State, t: Thread) returns (l: Label)
    requires Inv(s) && t in s.callers
    ensures Enabled(s, l) && Toil(s, l, t)
  {
    assert CallerOk(s, t);
    OneAtWork(s.cell);
    hide Sound, Revoking, Spent, Published, AtWork, Active, Fits, Serves;
    if s.callers[t].Looking? { l := Look(t); }
    else if s.callers[t].Waiting? && !Revoking(s.cell) { l := Wake(t); }
    else {
      var m := WorkGoesOn(s.cell, s.callers[s.worker.value].purpose);
      l := Work(s.worker.value, m);
    }
  }

  /** The steps a caller may still have to take itself before it works or leaves. */
  function Own(c: Cell, pc: Pc): nat {
    if pc.Working? then 0 else if pc.Waiting? then 2 else if MayWait(c) then 3 else 1
  }

  function Fuel(s: State, t: Thread): nat {
    Left(s.cell) + if t in s.callers then Own(s.cell, s.callers[t]) else 0
  }

  lemma LookFalls(s: State, l: Label, t: Thread)
    requires Inv(s) && Enabled(s, l) && l.Look?
    ensures Fuel(Next(s, l), t) <= Fuel(s, t) && (Toil(s, l, t) ==> Fuel(Next(s, l), t) < Fuel(s, t))
  {
    var p := s.callers[l.t].purpose;
    assert CallerOk(s, l.t) && s.callers != map[];
    if Find(s.cell, p) == Starts {
      StartsWork(s.cell, p);
      CellAdvances(s.cell, Start(s.cell, p));
    }
    hide Sound, Revoking, Spent, Published, AtWork, Active, Fits, Moved, Start, Background, Left;
  }

  /** No step adds to the steps that a caller has to see, except its own arrival. */
  lemma StepFalls(s: State, l: Label, t: Thread)
    requires Inv(s) && Enabled(s, l) && !(l.Arrive? && l.t == t)
    ensures Fuel(Next(s, l), t) <= Fuel(s, t) && (Toil(s, l, t) ==> Fuel(Next(s, l), t) < Fuel(s, t))
  {
    if l.Look? { LookFalls(s, l, t); }
    else {
      if l.Work? || l.Behind? { CellAdvances(s.cell, l.m); }
      assert !l.Behind? && l.t in s.callers ==> CallerOk(s, l.t);
      hide Sound, Published, AtWork, Active, Fits, Moved, Background, Left, Serves, Revoking, Spent;
    }
  }

  ghost function Toils(s: State, ls: seq<Label>, t: Thread): nat
    requires Legal(s, ls)
    decreases |ls|
  {
    if |ls| == 0 then 0 else (if Toil(s, ls[0], t) then 1 else 0) + Toils(Next(s, ls[0]), ls[1..], t)
  }

  /** The run does not contain another call under the same name. */
  predicate Once(ls: seq<Label>, t: Thread) {
    forall l | l in ls :: !(l.Arrive? && l.t == t)
  }

  /**
   A call of `revoke` or `destroy`, however many others come and go, returns at the latest when it and whoever is at work
   have taken the steps that were left, and there were at most eighteen.
   */
  lemma {:induction false} CallIsBounded(s: State, ls: seq<Label>, t: Thread)
    requires Inv(s) && Legal(s, ls) && Once(ls, t)
    ensures Inv(Run(s, ls)) && Toils(s, ls, t) + Fuel(Run(s, ls), t) <= Fuel(s, t) <= 18
    ensures Toils(s, ls, t) == Fuel(s, t) ==> t !in Run(s, ls).callers
    decreases |ls|
  {
    if |ls| == 0 {
      FuelLasts(s, t);
    } else {
      assert ls[0] in ls;
      FuelLasts(s, t);
      hide Inv, Enabled, Next, Fuel, Toil;
      StepKeeps(s, ls[0]);
      StepFalls(s, ls[0], t);
      CallIsBounded(Next(s, ls[0]), ls[1..], t);
    }
  }

  lemma FuelLasts(s: State, t: Thread)
    requires Inv(s)
    ensures Fuel(s, t) <= 18 && (Fuel(s, t) == 0 ==> t !in s.callers)
  {
    OneAtWork(s.cell);
    assert t in s.callers ==> CallerOk(s, t);
    hide Sound, Published, Fits;
  }

  /** A `destroy` call that is gone has left the cell closed, and it stays so. */
  lemma DestroyCloses(s: State, l: Label, t: Thread)
    requires Inv(s) && Enabled(s, l) && t in s.callers && s.callers[t].purpose == Destroy && t !in Next(s, l).callers
    ensures Closed(Next(s, l).cell)
  {
    if l.Work? { WorkCloses(s, l); }
    hide Sound, Published, Fits, AtWork, Moved;
  }

  lemma WorkCloses(s: State, l: Label)
    requires Inv(s) && Enabled(s, l) && l.Work? && s.callers[l.t].purpose == Destroy
    ensures Closed(Next(s, l).cell)
  {
    assert CallerOk(s, l.t);
    OneAtWork(s.cell);
    CellAdvances(s.cell, l.m);
    AtWorkCloses(s.cell);
    hide Sound, Published, Fits, AtWork, Moved, Serves, Background, Left;
  }

  lemma AtWorkCloses(c: Cell)
    requires Sound(c) && AtWork(c, Destroy)
    ensures Closed(c)
  {
    if c.Initial? { A.CellShowsCallers(c.initial); }
    hide A.Inv;
  }

  lemma StaysClosed(s: State, l: Label)
    requires Inv(s) && Enabled(s, l) && Closed(s.cell)
    ensures Closed(Next(s, l).cell)
  {
    if l.Work? || l.Behind? { CellAdvances(s.cell, l.m); }
    hide Sound, Published, Fits, AtWork, Moved, Serves, Background, Left;
  }

  lemma StaysPublished(s: State, l: Label)
    requires Inv(s) && Enabled(s, l) && Published(s.cell)
    ensures Published(Next(s, l).cell)
  {
    if l.Work? || l.Behind? { CellAdvances(s.cell, l.m); }
    if l.Look? && Fits(s.cell, Start(s.cell, s.callers[l.t].purpose)) { CellAdvances(s.cell, Start(s.cell, s.callers[l.t].purpose)); }
    hide Sound, Published, Fits, AtWork, Moved, Serves, Background, Left, Start;
  }
}
