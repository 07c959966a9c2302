/**
 The authority's Destroy, once OpenSession calls are over and it holds the list of its cells: it calls `destroy` on one
 cell after the other, while any number of callers go on in all of them. The authority is one caller among the others, but
 under a name of its own.
 */
module SessionShutdowns {
  import C = SessionCallers

  const Authority: C.Thread := 0

  /** `at` is the cell it has come to, `inside` whether it has called `destroy` there. */
  datatype State = State(cells: seq<C.State>, at: nat, inside: bool)

  datatype Label = Enter | Leave | Inside(i: nat, l: C.Label)

  /** The authority's call of `destroy` on the cell has returned. */
  predicate Returned(s: State) {
    s.at < |s.cells| && s.inside && Authority !in s.cells[s.at].callers
  }

  predicate Enabled(s: State, l: Label) {
    match l
    case Enter => s.at < |s.cells| && !s.inside && C.Enabled(s.cells[s.at], C.Arrive(Authority, C.Destroy))
    case Leave => Returned(s)
    case Inside(i, m) => i < |s.cells| && C.Enabled(s.cells[i], m) && !(m.Arrive? && m.t == Authority)
  }

  function Next(s: State, l: Label): State
    requires Enabled(s, l)
  {
    match l
    case Enter => s.(cells := s.cells[s.at := C.Next(s.cells[s.at], C.Arrive(Authority, C.Destroy))], inside := true)
    case Leave => s.(at := s.at + 1, inside := false)
    case Inside(i, m) => s.(cells := s.cells[i := C.Next(s.cells[i], m)])
  }

  predicate CellOk(s: State, i: nat)
    requires i < |s.cells|
  {
    && C.Inv(s.cells[i]) && C.Published(s.cells[i].cell)
    && (Authority in s.cells[i].callers ==> i == s.at && s.inside && s.cells[i].callers[Authority].purpose == C.Destroy)
    && (i < s.at || (i == s.at && Returned(s)) ==> C.Closed(s.cells[i].cell))
  }

  predicate Inv(s: State) {
    s.at <= |s.cells| && (s.inside ==> s.at < |s.cells|) && forall i | 0 <= i < |s.cells| :: CellOk(s, i)
  }

  /** The authority may begin with any cells that callers have left in any state. */
  lemma BeginsSound(cells: seq<C.State>)
    requires forall x | x in cells :: C.Inv(x) && C.Published(x.cell) && Authority !in x.callers
    ensures Inv(State(cells, 0, false))
  {
    hide C.Inv, C.Published;
  }

  lemma EnterKeeps(s: State)
    requires Inv(s) && Enabled(s, Enter)
    ensures Inv(Next(s, Enter))
  {
    assert CellOk(s, s.at);
    C.StepKeeps(s.cells[s.at], C.Arrive(Authority, C.Destroy));
    hide C.Inv, C.Published, C.Closed;
    var n := Next(s, Enter);
    forall i | 0 <= i < |n.cells| ensures CellOk(n, i) { assert CellOk(s, i); }
  }

  lemma LeaveKeeps(s: State)
    requires Inv(s) && Enabled(s, Leave)
    ensures Inv(Next(s, Leave))
  {
    hide C.Inv, C.Published, C.Closed;
    var n := Next(s, Leave);
    forall i | 0 <= i < |n.cells| ensures CellOk(n, i) { assert CellOk(s, i) && CellOk(s, s.at); }
  }

  lemma InsideKeeps(s: State, l: Label)
    requires Inv(s) && Enabled(s, l) && l.Inside?
    ensures Inv(Next(s, l))
  {
    assert CellOk(s, l.i);
    CellGoesOn(s.cells[l.i], l.l);
    hide C.Inv, C.Published, C.Closed, C.Enabled, C.Next;
    var n := Next(s, l);
    forall i | 0 <= i < |n.cells| ensures CellOk(n, i) { assert CellOk(s, i); }
  }

  /** One step inside a cell that is published. */
  lemma CellGoesOn(x: C.State, l: C.Label)
    requires C.Inv(x) && C.Enabled(x, l) && C.Published(x.cell) && !(l.Arrive? && l.t == Authority)
    ensures var y := C.Next(x, l);
            && C.Inv(y) && C.Published(y.cell) && (C.Closed(x.cell) ==> C.Closed(y.cell))
            && (Authority in y.callers ==> Authority in x.callers && y.callers[Authority].purpose == x.callers[Authority].purpose)
            && (Authority in x.callers && x.callers[Authority].purpose == C.Destroy && Authority !in y.callers ==> C.Closed(y.cell))
  {
    C.StepKeeps(x, l);
    C.StaysPublished(x, l);
    if C.Closed(x.cell) { C.StaysClosed(x, l); }
    if Authority in x.callers && x.callers[Authority].purpose == C.Destroy && Authority !in C.Next(x, l).callers {
      C.DestroyCloses(x, l, Authority);
    }
    hide C.Inv, C.Published, C.Closed, C.Fits, C.Moved, C.AtWork, C.Find;
  }

  lemma StepKeeps(s: State, l: Label)
    requires Inv(s) && Enabled(s, l)
    ensures Inv(Next(s, l))
  {
    hide Inv, Enabled, Next;
    if l.Enter? { EnterKeeps(s); } else if l.Leave? { LeaveKeeps(s); } else { InsideKeeps(s, l); }
  }

  // ---------------------------------------------------------------- Destroy returns

  /** A step of the authority, or of whoever is at work on the cell it waits for. */
  predicate Toil(s: State, l: Label) {
    l.Enter? || l.Leave? || (s.inside && l.i == s.at < |s.cells| && C.Toil(s.cells[s.at], l.l, Authority))
  }

  lemma ShutdownHasWork(s: State) returns (l: Label)
    requires Inv(s) && s.at < |s.cells|
    ensures Enabled(s, l) && Toil(s, l)
  {
    assert CellOk(s, s.at);
    if !s.inside { l := Enter; }
    else if Returned(s) { l := Leave; }
    else {
      var m := C.CallerHasWork(s.cells[s.at], Authority);
      hide C.Inv, C.Published, C.Closed;
      l := Inside(s.at, m);
    }
  }

  /** Twenty steps for every cell to come, and what is left in the cell the authority is in. */
  function WorkLeft(s: State): nat {
    if s.at >= |s.cells| then 0
    else 20 * (|s.cells| - s.at - 1)
         + if !s.inside then 20 else if Returned(s) then 1 else 1 + C.Fuel(s.cells[s.at], Authority)
  }

  lemma StepFalls(s: State, l: Label)
    requires Inv(s) && Enabled(s, l)
    ensures WorkLeft(Next(s, l)) <= WorkLeft(s) && (Toil(s, l) ==> WorkLeft(Next(s, l)) < WorkLeft(s))
  {
    if s.at < |s.cells| {
      assert CellOk(s, s.at);
      C.FuelLasts(s.cells[s.at], Authority);
      if l.Inside? && l.i == s.at { C.StepFalls(s.cells[s.at], l.l, Authority); }
      if l.Enter? {
        C.StepKeeps(s.cells[s.at], C.Arrive(Authority, C.Destroy));
        C.FuelLasts(C.Next(s.cells[s.at], C.Arrive(Authority, C.Destroy)), Authority);
      }
    }
    hide C.Inv, C.Published, C.Closed, C.Enabled, C.Next, C.Fuel, C.Toil;
  }

  predicate Legal(s: State, ls: seq<Label>)
    decreases |ls|
  {
    |ls| > 0 ==> Enabled(s, ls[0]) && Legal(Next(s, ls[0]), ls[1..])
  }

  function Run(s: State, ls: seq<Label>): State
    requires Legal(s, ls)
    decreases |ls|
  {
    if |ls| == 0 then s else Run(Next(s, ls[0]), ls[1..])
  }

  ghost function Toils(s: State, ls: seq<Label>): nat
    requires Legal(s, ls)
    decreases |ls|
  {
    if |ls| == 0 then 0 else (if Toil(s, ls[0]) then 1 else 0) + Toils(Next(s, ls[0]), ls[1..])
  }

  lemma {:induction false} RunFalls(s: State, ls: seq<Label>)
    requires Inv(s) && Legal(s, ls)
    ensures Inv(Run(s, ls)) && Toils(s, ls) + WorkLeft(Run(s, ls)) <= WorkLeft(s)
    decreases |ls|
  {
    hide Inv, Enabled, Next, WorkLeft, Toil;
    if |ls| > 0 {
      StepKeeps(s, ls[0]);
      StepFalls(s, ls[0]);
      RunFalls(Next(s, ls[0]), ls[1..]);
    }
  }

  /** The authority has been through all its cells. */
  predicate Done(s: State) {
    s.at == |s.cells|
  }

  /**
   The authority's Destroy returns after at most twenty steps per cell, its own and those of whoever is at work on the cell
   it waits for, however many callers keep coming; when it returns, every cell is closed, and nobody revokes.
   */
  lemma ShutdownIsBounded(s: State, ls: seq<Label>)
    requires Inv(s) && Legal(s, ls)
    ensures Toils(s, ls) <= WorkLeft(s) <= 20 * |s.cells|
    ensures Toils(s, ls) == WorkLeft(s) ==> Done(Run(s, ls))
    ensures Done(Run(s, ls)) ==> forall x | x in Run(s, ls).cells :: C.Closed(x.cell)
  {
    RunFalls(s, ls);
    var n := Run(s, ls);
    WorkLasts(s);
    WorkLasts(n);
    hide Toils, Legal, Run, C.Inv, C.Published, C.Closed, WorkLeft;
    forall x | x in n.cells && Done(n) ensures C.Closed(x.cell) {
      var i :| 0 <= i < |n.cells| && n.cells[i] == x;
      assert CellOk(n, i);
    }
  }

  lemma WorkLasts(s: State)
    requires Inv(s)
    ensures WorkLeft(s) <= 20 * |s.cells| && (WorkLeft(s) == 0 ==> Done(s))
  {
    if s.at < |s.cells| {
      assert CellOk(s, s.at);
      C.FuelLasts(s.cells[s.at], Authority);
    }
    hide C.Inv, C.Published, C.Closed, C.Fuel;
  }
}
