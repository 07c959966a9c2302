/**
 Nobody waits for nothing. A caller blocked on a done channel waits for a caller that is at work on the same attempt and
 can take its next step; Destroy waits for callers that can; and once Destroy has begun the work left shrinks with every
 step of theirs and of its own, so it returns after a bounded number of them. Outside calls are taken to return.
 */
module CleanupProgress {
  import opened Options
  import opened CleanupBrokers
  import opened CleanupSteps

  /** What a caller does next, if it can; waiting callers are woken by their channel or by the end of the broker. */
  ghost function OwnStep(s: State, t: Thread): Label
    requires t in s.threads
  {
    match s.threads[t]
    case Looking(_) => Look(t, true)
    case AwaitOpen(_, _) => if s.destroyed then WakeGone(t) else WakeDone(t)
    case AwaitBind(_, _) => if s.destroyed then WakeGone(t) else WakeDone(t)
    case AwaitRevoke(_, _) => if s.destroyed then WakeGone(t) else WakeDone(t)
    case Opening(_) => OpenReturn(t, false, false)
    case Opened(_, _, _) => OpenFinish(t)
    case Aborting(_) => AbortStart(t)
    case AbortDying(_) => AbortEnd(t)
    case Binding(_, _) => BindReturn(t, false)
    case Bound(_, _) => BindFinish(t)
    case Revoking(_, _) => RevokeReturn(t, false)
    case Revoked(_, _, _) => RevokeKill(t)
    case RevokeDying(_, _, _) => RevokeKilled(t)
    case Signing(_, _) => SignReturn(t, None)
    case Signed(_, _, _) => RevokeFinish(t)
    case Verifying => VerifyReturn(t)
    case Closing(_) => Done(t)
    case DestroyWaiting => DestroyCollect(t)
    case Draining(left) => if left == {} then DestroyFinish(t) else var h :| h in left; DrainStart(t, h)
    case DrainDying(_, _) => DrainEnd(t)
    case AwaitDestroy => DestroyLeave(t)
  }

  ghost predicate CanMove(s: State, t: Thread) {
    t in s.threads && Enabled(s, OwnStep(s, t)) && OwnStep(s, t).t == t
  }

  lemma BusyCanMove(s: State, t: Thread)
    requires t in s.threads && HoldsOperation(s.threads[t])
    ensures CanMove(s, t)
  {
    hide ChannelClosed, Certifies;
  }

  /** A caller that cannot go on although the broker lives waits for the very caller that is at work on its attempt. */
  lemma WaiterHasWorker(s: State, t: Thread)
    requires Inv(s) && t in s.threads && Awaits(s.threads[t]) && !CanMove(s, t)
    ensures var id := s.threads[t].id;
            && !s.destroyed && id in s.attempts && s.attempts[id].worker.Some?
            && var u := s.attempts[id].worker.value;
            && u != t && u in s.threads && WorksOn(s.threads[u]) == Some(id) && CanMove(s, u)
  {
    var id := s.threads[t].id;
    assert ThreadOk(s, t);
    assert !s.destroyed;
    assert AttemptOk(s, id);
    WorksIsBusy(s.threads[s.attempts[id].worker.value]);
    hide Inv, Enabled, OwnStep, CanMove, AttemptOk;
    BusyCanMove(s, s.attempts[id].worker.value);
  }

  lemma WorksIsBusy(pc: Pc)
    ensures WorksOn(pc).Some? ==> HoldsOperation(pc) && !Awaits(pc)
  {
  }

  /** While Destroy has not returned, its own caller can go on, or one that it waits for can. */
  lemma DestroyHasWork(s: State) returns (u: Thread)
    requires Inv(s) && s.destroyed && !s.destroyDone
    ensures CanMove(s, u) && (HoldsOperation(s.threads[u]) || s.destroyer == Some(u))
  {
    assert GlobalOk(s);
    if s.operations > 0 && !s.drained {
      u :| u in Busy(s.threads);
      hide Inv, CanMove;
      BusyCanMove(s, u);
    } else {
      u := s.destroyer.value;
      hide Inv, CanMove, GlobalOk;
    }
  }

  /** No caller is ever stuck: it can go on, or somebody else can for whom it is waiting. */
  lemma NoDeadlock(s: State, t: Thread)
    requires Inv(s) && t in s.threads && !CanMove(s, t)
    ensures exists u :: u != t && CanMove(s, u) && (HoldsOperation(s.threads[u]) || s.destroyer == Some(u))
  {
    if Awaits(s.threads[t]) {
      WaiterHasWorker(s, t);
      var u := s.attempts[s.threads[t].id].worker.value;
      WorksIsBusy(s.threads[u]);
      assert u != t && CanMove(s, u) && HoldsOperation(s.threads[u]);
    } else {
      BlockedIsDestroy(s, t);
      hide Inv, Awaits;
      var u := DestroyHasWork(s);
      assert u != t && CanMove(s, u);
    }
  }

  lemma BlockedIsDestroy(s: State, t: Thread)
    requires Inv(s) && t in s.threads && !CanMove(s, t) && !Awaits(s.threads[t])
    ensures s.destroyed && !s.destroyDone
  {
    assert ThreadOk(s, t) && GlobalOk(s);
    if HoldsOperation(s.threads[t]) { BusyCanMove(s, t); }
    hide Inv, Certifies, WorkFits;
  }

  // ---------------------------------------------------------------- how much work is left

  /** How many steps a caller inside an operation still has to take. */
  function Distance(pc: Pc): nat {
    match pc
    case Opening(_) => 5
    case Opened(_, _, _) => 4
    case Aborting(_) => 3
    case AbortDying(_) => 2
    case Binding(_, _) => 3
    case Bound(_, _) => 2
    case Revoking(_, _) => 6
    case Revoked(_, _, _) => 5
    case RevokeDying(_, _, _) => 4
    case Signing(_, _) => 3
    case Signed(_, _, _) => 2
    case Verifying => 2
    case Closing(_) => 1
    case _ => 0
  }

  ghost function Weight(threads: map<Thread, Pc>): nat
    decreases |threads|
  {
    if threads == map[] then 0
    else
      var t :| t in threads;
      Distance(threads[t]) + Weight(threads - {t})
  }

  lemma {:induction false} WeightAt(threads: map<Thread, Pc>, t: Thread)
    requires t in threads
    ensures Weight(threads) == Distance(threads[t]) + Weight(threads - {t})
    decreases |threads|
  {
    hide Distance;
    var u :| u in threads && Weight(threads) == Distance(threads[u]) + Weight(threads - {u});
    if u != t {
      WeightAt(threads - {u}, t);
      WeightAt(threads - {t}, u);
      assert (threads - {u}) - {t} == (threads - {t}) - {u};
    }
  }

  /** What the caller of Destroy itself has left: to collect at most one handle per attempt and to destroy them. */
  function DestroyWeight(s: State): nat {
    if !s.destroyed || s.destroyDone || s.destroyer.None? || s.destroyer.value !in s.threads then 0
    else match s.threads[s.destroyer.value]
      case DestroyWaiting => 2 * |s.attempts| + 2
      case Draining(left) => 2 * |left| + 1
      case DrainDying(left, _) => 2 * |left| + 2
      case _ => 0
  }

  ghost function WorkLeft(s: State): nat {
    Weight(s.threads) + DestroyWeight(s)
  }

  /** A step of a caller inside an operation, or of the caller of Destroy. */
  predicate Toil(s: State, l: Label) {
    l.t in s.threads && (HoldsOperation(s.threads[l.t]) || s.destroyer == Some(l.t))
  }

  lemma WeightPlaced(threads: map<Thread, Pc>, c: Change)
    ensures Weight(Placed(threads, c)) + (if c.t in threads then Distance(threads[c.t]) else 0)
            == Weight(threads) + (if c.pc.Some? then Distance(c.pc.value) else 0)
  {
    hide Distance;
    var rest := threads - {c.t};
    if c.t in threads { WeightAt(threads, c.t); } else { assert rest == threads; }
    if c.pc.Some? {
      WeightAt(threads[c.t := c.pc.value], c.t);
      assert threads[c.t := c.pc.value] - {c.t} == rest;
    }
  }

  /** A change by anybody but the caller of Destroy moves the work left by its own distance. */
  lemma ApplyWork(s: State, c: Change)
    requires s.destroyer != Some(c.t) && (c.attempt.Some? ==> c.attempt.value.0 in s.attempts)
    ensures WorkLeft(Apply(s, c)) + (if c.t in s.threads then Distance(s.threads[c.t]) else 0)
            == WorkLeft(s) + (if c.pc.Some? then Distance(c.pc.value) else 0)
  {
    WeightPlaced(s.threads, c);
    var n := Apply(s, c);
    assert n.attempts.Keys == s.attempts.Keys;
    hide Distance, Weight, Recount;
    DestroyWeightSame(s, n);
  }

  lemma DestroyWeightSame(s: State, n: State)
    requires n.destroyed == s.destroyed && n.destroyDone == s.destroyDone && n.destroyer == s.destroyer && |n.attempts| == |s.attempts|
    requires s.destroyer.Some? ==>
               && (s.destroyer.value in s.threads <==> s.destroyer.value in n.threads)
               && (s.destroyer.value in s.threads ==> n.threads[s.destroyer.value] == s.threads[s.destroyer.value])
    ensures DestroyWeight(n) == DestroyWeight(s)
  {
  }

  lemma WorkApproaches(s: State, l: Label, pc: Pc, a: Attempt)
    requires Continues(s, l, pc) && Works(l)
    ensures var c := WorkChange(s, l, pc, a);
            c.t == l.t && c.pc.Some? && Distance(c.pc.value) < Distance(pc) && (c.attempt.Some? ==> Some(c.attempt.value.0) == WorksOn(pc))
  {
    hide Edit, Certifies;
  }

  lemma PlainApproaches(s: State, l: Label, pc: Pc)
    requires Continues(s, l, pc) && Plain(l)
    ensures var c := PlainChange(s, l, pc);
            && c.t == l.t && c.attempt.None?
            && (if HoldsOperation(pc) then (if c.pc.Some? then Distance(c.pc.value) < Distance(pc) else Distance(pc) > 0)
                else Distance(pc) == 0 && (c.pc.Some? ==> Distance(c.pc.value) == 0))
  {
    hide Edit;
  }

  lemma WorkStepFalls(s: State, l: Label)
    requires Inv(s) && Enabled(s, l) && Works(l)
    ensures WorkLeft(Next(s, l)) < WorkLeft(s)
  {
    WorkStep(s, l);
    var pc := s.threads[l.t];
    var id := WorksOn(pc).value;
    InAround(s, l.t);
    AroundHas(s, l.t, id);
    WorksIsBusy(pc);
    NotDestroyer(s, l.t);
    WorkApproaches(s, l, pc, s.attempts[id]);
    hide Inv, Around, WorkChange, Next, Enabled, Continues, Works, Apply, Distance, WorkLeft, WorksOn;
    ApplyWork(s, WorkChange(s, l, pc, s.attempts[id]));
  }

  lemma PlainStepFalls(s: State, l: Label)
    requires Inv(s) && Enabled(s, l) && Plain(l)
    ensures WorkLeft(Next(s, l)) <= WorkLeft(s)
    ensures Toil(s, l) ==> WorkLeft(Next(s, l)) < WorkLeft(s)
  {
    PlainStep(s, l);
    var pc := s.threads[l.t];
    NotDestroyer(s, l.t);
    PlainApproaches(s, l, pc);
    hide Inv, PlainChange, Next, Enabled, Continues, Plain, Apply, Distance, WorkLeft, HoldsOperation;
    ApplyWork(s, PlainChange(s, l, pc));
  }

  lemma LookAtTheEnd(s: State, t: Thread, call: Call, capable: bool)
    requires s.destroyed
    ensures var c := LookChange(s, t, call, capable); c.t == t && c.pc.None? && c.attempt.None?
  {
  }

  /** Once Destroy has begun, callers that come, look or wake add no work. */
  lemma OutsiderAddsNothing(s: State, l: Label)
    requires Inv(s) && Enabled(s, l) && s.destroyed && (l.Arrive? || l.DestroyJoin? || l.Look?)
    ensures WorkLeft(Next(s, l)) == WorkLeft(s) && !Toil(s, l)
  {
    hide Inv, LookChange, Apply, WorkLeft;
    if l.Look? {
      NotDestroyer(s, l.t);
      LookAtTheEnd(s, l.t, s.threads[l.t].call, l.capable);
      ApplyWork(s, LookChange(s, l.t, s.threads[l.t].call, l.capable));
    } else {
      ApplyWork(s, Stay(l.t, if l.Arrive? then Looking(l.call) else AwaitDestroy));
    }
  }

  lemma HandlesAreFew(attempts: map<string, Attempt>)
    ensures |Handles(attempts)| <= |attempts|
    decreases |attempts|
  {
    if attempts != map[] {
      var id :| id in attempts;
      var rest := attempts - {id};
      HandlesAreFew(rest);
      var own := if attempts[id].handle.Some? then {attempts[id].handle.value} else {};
      forall h | h in Handles(attempts) ensures h in Handles(rest) + own {
        var i :| i in attempts && attempts[i].handle == Some(h);
        assert i != id ==> i in rest && rest[i].handle == Some(h);
      }
      assert Handles(attempts) <= Handles(rest) + own;
      Smaller(Handles(attempts), Handles(rest) + own);
      assert rest.Keys == attempts.Keys - {id};
    }
  }

  lemma Smaller(a: set<HandleID>, b: set<HandleID>)
    requires a <= b
    ensures |a| <= |b|
  {
    assert b == a + (b - a);
  }

  lemma DestroyerStepFalls(s: State, l: Label)
    requires Inv(s) && Enabled(s, l) && (l.DestroyCollect? || l.DrainStart? || l.DrainEnd? || l.DestroyFinish?)
    ensures WorkLeft(Next(s, l)) < WorkLeft(s)
  {
    DestroyerAtWork(s, l);
    HandlesAreFew(s.attempts);
    DrainMove(s, l);
    WeightPlaced(s.threads, Change(l.t, Moved(s, l), None, None, None));
    hide Inv, Weight, Handles, Next, Placed, Enabled, Moved, Distance, DestroyWeight;
    if l.DestroyFinish? { DestroyEnds(s, l); } else { DrainWeighs(s, l); }
  }

  lemma DestroyerAtWork(s: State, l: Label)
    requires Inv(s) && Enabled(s, l) && (l.DestroyCollect? || l.DrainStart? || l.DrainEnd? || l.DestroyFinish?)
    ensures l.t in s.threads && s.destroyed && !s.destroyDone && s.destroyer == Some(l.t)
  {
    assert ThreadOk(s, l.t) && GlobalOk(s);
    hide Inv, WorkFits, WaiterOk;
  }

  function Moved(s: State, l: Label): Option<Pc>
    requires Enabled(s, l) && (l.DestroyCollect? || l.DrainStart? || l.DrainEnd? || l.DestroyFinish?)
  {
    if l.DestroyCollect? then Some(Draining(Handles(s.attempts)))
    else if l.DrainStart? then Some(DrainDying(s.threads[l.t].left - {l.h}, l.h))
    else if l.DrainEnd? then Some(Draining(s.threads[l.t].left)) else None
  }

  lemma DrainMove(s: State, l: Label)
    requires Enabled(s, l) && (l.DestroyCollect? || l.DrainStart? || l.DrainEnd? || l.DestroyFinish?)
    ensures Next(s, l).threads == Placed(s.threads, Change(l.t, Moved(s, l), None, None, None))
    ensures Distance(s.threads[l.t]) == 0 && (Moved(s, l).Some? ==> Distance(Moved(s, l).value) == 0)
  {
    hide Recount, Handles, Collected, Edit;
  }

  lemma DrainWeighs(s: State, l: Label)
    requires Enabled(s, l) && (l.DestroyCollect? || l.DrainStart? || l.DrainEnd?)
    requires s.destroyed && !s.destroyDone && s.destroyer == Some(l.t) && |Handles(s.attempts)| <= |s.attempts|
    ensures DestroyWeight(Next(s, l)) < DestroyWeight(s)
  {
    hide Recount, Handles, Collected, Edit;
  }

  lemma DestroyEnds(s: State, l: Label)
    requires Enabled(s, l) && l.DestroyFinish? && s.destroyed && !s.destroyDone && s.destroyer == Some(l.t)
    ensures DestroyWeight(Next(s, l)) < DestroyWeight(s)
  {
  }

  lemma StepFalls(s: State, l: Label)
    requires Inv(s) && Enabled(s, l) && s.destroyed
    ensures WorkLeft(Next(s, l)) <= WorkLeft(s)
    ensures Toil(s, l) ==> WorkLeft(Next(s, l)) < WorkLeft(s)
  {
    if l.Arrive? || l.DestroyJoin? || l.Look? { OutsiderAddsNothing(s, l); }
    else if Works(l) { WorkStepFalls(s, l); }
    else if Plain(l) { PlainStepFalls(s, l); }
    else { DestroyerStepFalls(s, l); }
    hide Inv, Next, WorkLeft, Toil;
  }

  /** The steps of a run that callers inside operations and the caller of Destroy take. */
  ghost function Toils(s: State, ls: seq<Label>): nat
    requires Legal(s, ls)
    decreases |ls|
  {
    if |ls| == 0 then 0 else (if Toil(s, ls[0]) then 1 else 0) + Toils(Next(s, ls[0]), ls[1..])
  }

  /**
   Once Destroy has begun, however many callers keep coming, callers inside operations and the caller of Destroy take no
   more steps than the work that was left; with DestroyHasWork, Destroy returns after at most so many of them.
   */
  lemma {:induction false} DestroyIsBounded(s: State, ls: seq<Label>)
    requires Inv(s) && s.destroyed && Legal(s, ls)
    ensures Toils(s, ls) + WorkLeft(Run(s, ls)) <= WorkLeft(s)
    ensures Toils(s, ls) == WorkLeft(s) ==> Run(s, ls).destroyDone
    decreases |ls|
  {
    hide Inv, Enabled, Next, Toil, WorkLeft;
    if |ls| == 0 {
      if WorkLeft(s) == 0 { NothingLeft(s); }
    } else {
      StepKeeps(s, ls[0]);
      StepFalls(s, ls[0]);
      StaysDestroyed(s, ls[0]);
      DestroyIsBounded(Next(s, ls[0]), ls[1..]);
    }
  }

  lemma ApplyStaysDestroyed(s: State)
    ensures forall c :: Apply(s, c).destroyed == s.destroyed && Apply(s, c).destroyDone == s.destroyDone
  {
    hide Recount, Placed, Opens;
  }

  lemma StaysDestroyed(s: State, l: Label)
    requires Enabled(s, l) && s.destroyed
    ensures Next(s, l).destroyed && (s.destroyDone ==> Next(s, l).destroyDone)
  {
    hide LookChange, PlainChange, WorkChange, Edit, Handles, Collected, Apply, WorksOn;
    ApplyStaysDestroyed(s);
  }

  lemma NothingLeft(s: State)
    requires Inv(s) && s.destroyed && WorkLeft(s) == 0
    ensures s.destroyDone
  {
    assert GlobalOk(s);
    hide Inv, Weight;
  }
}
