/** Every step of the cleanup broker keeps its invariant. A step touches one caller, one attempt and one handle at most. */
module CleanupSteps {
  import opened Options
  import opened CleanupProofs
  import opened CleanupBrokers

  lemma BusyPlaced(threads: map<Thread, Pc>, c: Change)
    ensures Busy(Placed(threads, c)) ==
              if c.pc.Some? && HoldsOperation(c.pc.value) then Busy(threads) + {c.t} else Busy(threads) - {c.t}
  {
    hide HoldsOperation;
  }

  lemma BusyCounts(s: State, c: Change)
    requires s.operations == |Busy(s.threads)|
    ensures Recount(s, c) == |Busy(Placed(s.threads, c))|
  {
    BusyPlaced(s.threads, c);
    hide HoldsOperation, Placed;
    if Counted(s.threads, c.t) {
      assert c.t in Busy(s.threads);
      assert Busy(s.threads) + {c.t} == Busy(s.threads);
    } else {
      assert c.t !in Busy(s.threads);
      assert Busy(s.threads) - {c.t} == Busy(s.threads);
    }
  }

  // ---------------------------------------------------------------- frames

  /** Everything but caller t, attempt id and handle h is the same. */
  ghost predicate SameExcept(s: State, n: State, t: Thread, id: Option<string>, h: Option<HandleID>) {
    && (forall u | u != t :: u in n.threads <==> u in s.threads)
    && (forall u | u != t && u in s.threads :: n.threads[u] == s.threads[u])
    && (forall i | Some(i) != id :: i in n.attempts <==> i in s.attempts)
    && (forall i | i in s.attempts && Some(i) != id :: n.attempts[i] == s.attempts[i])
    && (forall k | Some(k) != h :: k in n.ledger <==> k in s.ledger)
    && (forall k | k in s.ledger && Some(k) != h :: n.ledger[k] == s.ledger[k])
    && (forall i | i in s.attempts :: i in n.attempts)
    && (forall k | k in s.ledger :: k in n.ledger)
    && (forall i | Some(i) != id :: i in n.verdicts <==> i in s.verdicts)
    && (forall i | i in s.verdicts :: i in n.verdicts && n.verdicts[i] == s.verdicts[i])
    && n.nextHandle >= s.nextHandle
    && n.destroyed == s.destroyed && n.drained == s.drained && n.destroyDone == s.destroyDone
    && n.destroyer == s.destroyer && s.destroyer != Some(t)
  }

  /** Nobody else is concerned with the attempt or the handle that the step touches. */
  predicate Local(s: State, t: Thread, id: Option<string>, h: Option<HandleID>) {
    && (id.Some? && id.value in s.attempts ==>
          && (s.attempts[id.value].worker == None || s.attempts[id.value].worker == Some(t))
          && (s.attempts[id.value].handle == None || s.attempts[id.value].handle == h))
    && (h.Some? && h.value in s.ledger ==>
          || s.ledger[h.value].place == WithThread(t) || s.ledger[h.value].place == Dying(t)
          || ((s.ledger[h.value].place == InAttempt || s.ledger[h.value].place == Gone) && Some(s.ledger[h.value].attempt) == id))
    && (t in s.threads ==>
          && (WorksOn(s.threads[t]) == None || WorksOn(s.threads[t]) == id)
          && (Carries(s.threads[t]) == None || Carries(s.threads[t]) == h)
          && (Kills(s.threads[t]) == None || Kills(s.threads[t]) == h))
  }

  /** What has started stays started. */
  predicate Advances(s: State, n: State, id: Option<string>) {
    id.Some? && id.value in s.attempts && id.value in n.attempts ==>
      && (s.attempts[id.value].bindStarted ==> n.attempts[id.value].bindStarted)
      && (s.attempts[id.value].revokeStarted ==> n.attempts[id.value].revokeStarted)
  }

  lemma WorkFitsFrame(s: State, n: State, u: Thread, a: Attempt, pc: Pc)
    requires WorkFits(s, u, a, pc)
    requires a.handle.Some? ==> a.handle.value in s.ledger && a.handle.value in n.ledger && n.ledger[a.handle.value] == s.ledger[a.handle.value]
    ensures WorkFits(n, u, a, pc)
  {
    hide Certifies;
  }

  lemma WorkFrame(s: State, n: State, t: Thread, id: Option<string>, h: Option<HandleID>, u: Thread)
    requires Inv(s) && SameExcept(s, n, t, id, h) && Local(s, t, id, h) && u != t && u in s.threads
    requires WorksOn(s.threads[u]).Some?
    ensures var i := WorksOn(s.threads[u]).value;
            i in n.attempts && n.attempts[i].worker == Some(u) && WorkFits(n, u, n.attempts[i], s.threads[u])
  {
    var i := WorksOn(s.threads[u]).value;
    assert ThreadOk(s, u);
    assert AttemptOk(s, i);
    hide Inv, WorkFits, AttemptShape, WaiterOk, DestroyerOk;
    assert Some(i) != id;
    WorkFitsFrame(s, n, u, s.attempts[i], s.threads[u]);
  }

  lemma DestroyerFrame(s: State, n: State, t: Thread, id: Option<string>, h: Option<HandleID>, u: Thread, pc: Pc)
    requires SameExcept(s, n, t, id, h) && Local(s, t, id, h) && DestroyerOk(s, u, pc)
    ensures DestroyerOk(n, u, pc)
  {
  }

  lemma ThreadFrame(s: State, n: State, t: Thread, id: Option<string>, h: Option<HandleID>, u: Thread)
    requires Inv(s) && SameExcept(s, n, t, id, h) && Local(s, t, id, h) && Advances(s, n, id) && u != t && u in s.threads
    ensures u in n.threads && ThreadOk(n, u)
  {
    assert ThreadOk(s, u);
    if WorksOn(s.threads[u]).Some? { WorkFrame(s, n, t, id, h, u); }
    DestroyerFrame(s, n, t, id, h, u, s.threads[u]);
    OwnerFrame(s, n, t, id, h, u);
    hide Inv, WorkFits, WaiterOk, DestroyerOk, Advances, SameExcept, Local, At, ReplyOk;
  }

  lemma OwnerFrame(s: State, n: State, t: Thread, id: Option<string>, h: Option<HandleID>, u: Thread)
    requires SameExcept(s, n, t, id, h) && Local(s, t, id, h) && u != t && u in s.threads
    requires ThreadOk(s, u)
    ensures var pc := s.threads[u];
            && (Carries(pc).Some? ==>
                  && At(n, Carries(pc).value, WithThread(u))
                  && (pc.Opened? ==> n.ledger[Carries(pc).value].attempt == pc.id))
            && (Kills(pc).Some? ==> At(n, Kills(pc).value, Dying(u)))
            && (pc.Closing? && pc.reply.Some? ==> ReplyOk(n, pc.reply.value))
  {
    hide WorkFits, WaiterOk, DestroyerOk;
  }

  lemma AttemptFrame(s: State, n: State, t: Thread, id: Option<string>, h: Option<HandleID>, i: string)
    requires Inv(s) && SameExcept(s, n, t, id, h) && Local(s, t, id, h) && Some(i) != id && i in s.attempts
    ensures i in n.attempts && AttemptOk(n, i)
  {
    assert AttemptOk(s, i);
    hide Inv, AttemptShape;
  }

  lemma HandleFrame(s: State, n: State, t: Thread, id: Option<string>, h: Option<HandleID>, k: HandleID)
    requires Inv(s) && SameExcept(s, n, t, id, h) && Local(s, t, id, h) && Some(k) != h && k in s.ledger
    ensures k in n.ledger && HandleOk(n, k)
  {
    hide Inv;
    HandleIn(s, k);
  }

  lemma HandleIn(s: State, k: HandleID)
    requires Inv(s) && k in s.ledger
    ensures HandleOk(s, k)
  {
    hide HandleOk;
  }

  lemma FrameKeeps(s: State, n: State, t: Thread, id: Option<string>, h: Option<HandleID>)
    requires Inv(s) && SameExcept(s, n, t, id, h) && Local(s, t, id, h) && Advances(s, n, id) && GlobalOk(n) && LogOk(n)
    requires t in n.threads ==> ThreadOk(n, t)
    requires id.Some? && id.value in n.attempts ==> AttemptOk(n, id.value)
    requires h.Some? && h.value in n.ledger ==> HandleOk(n, h.value)
    ensures Inv(n)
  {
    hide ThreadOk, AttemptOk, HandleOk, GlobalOk, Local, LogOk, Advances;
    forall u | u in n.threads ensures ThreadOk(n, u) {
      if u != t { ThreadFrame(s, n, t, id, h, u); }
    }
    forall i | i in n.attempts ensures AttemptOk(n, i) {
      if Some(i) != id { AttemptFrame(s, n, t, id, h, i); }
    }
    forall k | k in n.ledger ensures HandleOk(n, k) {
      if Some(k) != h { HandleFrame(s, n, t, id, h, k); }
    }
  }

  // ---------------------------------------------------------------- changes

  /** The history a change adds does not contradict the history there is. */
  predicate Consistent(s: State, c: Change) {
    && (c.attempt.Some? && c.attempt.value.1.revokeComplete && !s.destroyed && c.attempt.value.0 in s.verdicts ==>
          s.verdicts[c.attempt.value.0] == c.attempt.value.1.verdict)
    && (c.reply.Some? ==> ReplyOk(Apply(s, c), c.reply.value))
  }

  lemma ApplySame(s: State, c: Change, id: Option<string>, h: Option<HandleID>)
    requires s.destroyer != Some(c.t) && Consistent(s, c)
    requires c.attempt.Some? ==> id == Some(c.attempt.value.0)
    requires c.entry.Some? ==> h == Some(c.entry.value.0)
    ensures SameExcept(s, Apply(s, c), c.t, id, h)
  {
    hide ReplyOk, Recount;
  }

  lemma ApplyLog(s: State, c: Change)
    requires LogOk(s) && Consistent(s, c)
    ensures LogOk(Apply(s, c))
  {
    hide Recount, Placed;
    var n := Apply(s, c);
    forall i | 0 <= i < |n.log| ensures ReplyOk(n, n.log[i]) {
      if i < |s.log| { assert ReplyOk(s, s.log[i]); }
    }
  }

  lemma ApplyGlobal(s: State, c: Change)
    requires GlobalOk(s) && s.destroyer != Some(c.t)
    requires c.pc.Some? && HoldsOperation(c.pc.value) && !Counted(s.threads, c.t) ==> !s.destroyed
    requires c.attempt.Some? ==> c.attempt.value.0 in s.attempts || !s.drained
    ensures GlobalOk(Apply(s, c))
  {
    hide Busy, Recount, HoldsOperation, Counted;
    BusyCounts(s, c);
    BusyPlaced(s.threads, c);
    CountedIsBusy(s.threads, c.t);
  }

  lemma CountedIsBusy(threads: map<Thread, Pc>, t: Thread)
    ensures Counted(threads, t) ==> t in Busy(threads)
  {
  }

  /** The change leaves its caller, its attempt and its handle in order and concerns nobody else. */
  predicate Fitting(s: State, c: Change, id: Option<string>, h: Option<HandleID>) {
    Concerns(s, c, id, h) && Orderly(s, c, id, h)
  }

  predicate Concerns(s: State, c: Change, id: Option<string>, h: Option<HandleID>) {
    && Local(s, c.t, id, h) && s.destroyer != Some(c.t) && Consistent(s, c) && Advances(s, Apply(s, c), id)
    && (c.pc.Some? && HoldsOperation(c.pc.value) && !Counted(s.threads, c.t) ==> !s.destroyed)
    && (c.attempt.Some? ==> (c.attempt.value.0 in s.attempts || !s.drained) && id == Some(c.attempt.value.0))
    && (c.entry.Some? ==> h == Some(c.entry.value.0))
  }

  predicate Orderly(s: State, c: Change, id: Option<string>, h: Option<HandleID>) {
    && (c.pc.Some? ==> c.t in Apply(s, c).threads && ThreadOk(Apply(s, c), c.t))
    && (id.Some? && id.value in Apply(s, c).attempts ==> AttemptOk(Apply(s, c), id.value))
    && (h.Some? && h.value in Apply(s, c).ledger ==> HandleOk(Apply(s, c), h.value))
  }

  lemma ApplyKeeps(s: State, c: Change, id: Option<string>, h: Option<HandleID>)
    requires Inv(s) && Fitting(s, c, id, h)
    ensures Inv(Apply(s, c))
  {
    ApplySame(s, c, id, h);
    assert GlobalOk(s) && LogOk(s);
    ApplyGlobal(s, c);
    ApplyLog(s, c);
    assert c.pc.None? ==> c.t !in Apply(s, c).threads;
    hide Inv, Local, SameExcept, Apply, ThreadOk, AttemptOk, HandleOk, GlobalOk, LogOk, Advances, Consistent;
    FrameKeeps(s, Apply(s, c), c.t, id, h);
  }

  // ---------------------------------------------------------------- callers at work

  /** What the invariant says about one caller, the attempt it works on and that attempt's handle. */
  predicate Around(s: State, t: Thread, id: string) {
    && t in s.threads && id in s.attempts && ThreadOk(s, t) && AttemptOk(s, id)
    && (s.attempts[id].handle.Some? ==> s.attempts[id].handle.value in s.ledger && HandleOk(s, s.attempts[id].handle.value))
    && (Carries(s.threads[t]).Some? ==> Carries(s.threads[t]).value in s.ledger && HandleOk(s, Carries(s.threads[t]).value))
    && s.destroyer != Some(t) && !s.drained && s.nextHandle !in s.ledger
  }

  lemma BusyIsNotDestroyer(s: State, t: Thread)
    requires GlobalOk(s) && t in s.threads && HoldsOperation(s.threads[t])
    ensures s.destroyer != Some(t) || s.destroyDone
    ensures !s.drained
  {
    assert t in Busy(s.threads);
  }

  lemma FreshHandle(s: State)
    requires Inv(s)
    ensures s.nextHandle !in s.ledger
  {
    forall h | h in s.ledger ensures h < s.nextHandle {
      assert HandleOk(s, h);
    }
  }

  lemma InAround(s: State, t: Thread)
    requires Inv(s) && t in s.threads && WorksOn(s.threads[t]).Some?
    ensures Around(s, t, WorksOn(s.threads[t]).value)
  {
    var id := WorksOn(s.threads[t]).value;
    FreshHandle(s);
    assert GlobalOk(s);
    assert ThreadOk(s, t) && AttemptOk(s, id);
    BusyIsNotDestroyer(s, t);
    if s.attempts[id].handle.Some? { assert HandleOk(s, s.attempts[id].handle.value); }
    if Carries(s.threads[t]).Some? { assert HandleOk(s, Carries(s.threads[t]).value); }
    hide Inv, ThreadOk, AttemptOk, HandleOk;
  }

  /** The handle such a step is about: a new one, the caller's own, or that of its attempt. */
  function About(s: State, l: Label, pc: Pc, a: Attempt): Option<HandleID> {
    if l.OpenReturn? then if l.handed then Some(s.nextHandle) else None
    else if l.OpenFinish? then Carries(pc)
    else a.handle
  }

  predicate Ready(s: State, l: Label, pc: Pc, id: string) {
    Around(s, l.t, id) && s.threads[l.t] == pc && WorksOn(pc) == Some(id) && Continues(s, l, pc)
  }

  lemma OpenReturnFits(s: State, l: Label, pc: Pc, id: string)
    requires Ready(s, l, pc, id) && l.OpenReturn?
    ensures Fitting(s, WorkChange(s, l, pc, s.attempts[id]), Some(id), About(s, l, pc, s.attempts[id]))
  {
    hide Recount;
  }

  lemma OpenFinishFits(s: State, l: Label, pc: Pc, id: string)
    requires Ready(s, l, pc, id) && l.OpenFinish?
    ensures Fitting(s, WorkChange(s, l, pc, s.attempts[id]), Some(id), About(s, l, pc, s.attempts[id]))
  {
    hide *;
    if s.destroyed { OpenDropFits(s, l, pc, id); } else { OpenKeepFits(s, l, pc, id); }
  }

  lemma OpenDropFits(s: State, l: Label, pc: Pc, id: string)
    requires Ready(s, l, pc, id) && l.OpenFinish? && s.destroyed
    ensures Fitting(s, WorkChange(s, l, pc, s.attempts[id]), Some(id), About(s, l, pc, s.attempts[id]))
  {
    hide Recount;
  }

  lemma OpenKeepFits(s: State, l: Label, pc: Pc, id: string)
    requires Ready(s, l, pc, id) && l.OpenFinish? && !s.destroyed
    ensures Fitting(s, WorkChange(s, l, pc, s.attempts[id]), Some(id), About(s, l, pc, s.attempts[id]))
  {
    hide Recount;
  }

  lemma BindReturnFits(s: State, l: Label, pc: Pc, id: string)
    requires Ready(s, l, pc, id) && l.BindReturn?
    ensures Fitting(s, WorkChange(s, l, pc, s.attempts[id]), Some(id), About(s, l, pc, s.attempts[id]))
  {
    hide Recount;
  }

  lemma BindFinishFits(s: State, l: Label, pc: Pc, id: string)
    requires Ready(s, l, pc, id) && l.BindFinish?
    ensures Fitting(s, WorkChange(s, l, pc, s.attempts[id]), Some(id), About(s, l, pc, s.attempts[id]))
  {
    hide Recount;
  }

  lemma RevokeReturnFits(s: State, l: Label, pc: Pc, id: string)
    requires Ready(s, l, pc, id) && l.RevokeReturn?
    ensures Fitting(s, WorkChange(s, l, pc, s.attempts[id]), Some(id), About(s, l, pc, s.attempts[id]))
  {
    hide Recount;
  }

  lemma RevokeKillFits(s: State, l: Label, pc: Pc, id: string)
    requires Ready(s, l, pc, id) && l.RevokeKill?
    ensures Fitting(s, WorkChange(s, l, pc, s.attempts[id]), Some(id), About(s, l, pc, s.attempts[id]))
  {
    hide Recount;
  }

  lemma RevokeKilledFits(s: State, l: Label, pc: Pc, id: string)
    requires Ready(s, l, pc, id) && l.RevokeKilled?
    ensures Fitting(s, WorkChange(s, l, pc, s.attempts[id]), Some(id), About(s, l, pc, s.attempts[id]))
  {
    hide Concerns, Orderly, WorkChange, About, Ready;
    KilledConcerns(s, l, pc, id);
    KilledOrderly(s, l, pc, id);
  }

  lemma KilledConcerns(s: State, l: Label, pc: Pc, id: string)
    requires Ready(s, l, pc, id) && l.RevokeKilled?
    ensures Concerns(s, WorkChange(s, l, pc, s.attempts[id]), Some(id), About(s, l, pc, s.attempts[id]))
  {
    hide Recount;
  }

  lemma KilledChange(s: State, l: Label, pc: Pc, a: Attempt)
    requires Continues(s, l, pc) && l.RevokeKilled?
    ensures pc.RevokeDying?
    ensures WorkChange(s, l, pc, a)
            == Change(l.t, Some(Signing(pc.id, !a.openErr && pc.ok)), Some((pc.id, a.(revokeOk := pc.ok))), Edit(s, pc.h, gone), None)
  {
  }

  lemma KilledOrderly(s: State, l: Label, pc: Pc, id: string)
    requires Ready(s, l, pc, id) && l.RevokeKilled?
    ensures Orderly(s, WorkChange(s, l, pc, s.attempts[id]), Some(id), About(s, l, pc, s.attempts[id]))
  {
    hide Recount, Continues, Certifies, ReplyOk;
    KilledChange(s, l, pc, s.attempts[id]);
    hide WorkChange;
  }

  lemma SignReturnFits(s: State, l: Label, pc: Pc, id: string)
    requires Ready(s, l, pc, id) && l.SignReturn?
    ensures Fitting(s, WorkChange(s, l, pc, s.attempts[id]), Some(id), About(s, l, pc, s.attempts[id]))
  {
    hide Recount, Certifies;
  }

  lemma RevokeFinishFits(s: State, l: Label, pc: Pc, id: string)
    requires Ready(s, l, pc, id) && l.RevokeFinish?
    ensures Fitting(s, WorkChange(s, l, pc, s.attempts[id]), Some(id), About(s, l, pc, s.attempts[id]))
  {
    hide Concerns, Orderly, WorkChange, About, Ready;
    RevokeFinishConcerns(s, l, pc, id);
    RevokeFinishOrderly(s, l, pc, id);
  }

  lemma RevokeFinishConcerns(s: State, l: Label, pc: Pc, id: string)
    requires Ready(s, l, pc, id) && l.RevokeFinish?
    ensures Concerns(s, WorkChange(s, l, pc, s.attempts[id]), Some(id), About(s, l, pc, s.attempts[id]))
  {
    hide Recount;
  }

  lemma RevokeFinishOrderly(s: State, l: Label, pc: Pc, id: string)
    requires Ready(s, l, pc, id) && l.RevokeFinish?
    ensures Orderly(s, WorkChange(s, l, pc, s.attempts[id]), Some(id), About(s, l, pc, s.attempts[id]))
  {
    hide Recount, Continues;
    FinishChange(s, l, pc, s.attempts[id]);
    hide WorkChange;
  }

  lemma FinishChange(s: State, l: Label, pc: Pc, a: Attempt)
    requires Continues(s, l, pc) && l.RevokeFinish?
    ensures pc.Signed?
    ensures var verdict := if s.destroyed then Abandoned else if pc.signed.Some? then Proved(pc.signed.value) else Denied;
            WorkChange(s, l, pc, a)
            == Change(l.t, Some(Closing(Some((pc.id, if s.destroyed then Unavailable else Answer(verdict))))),
                      Some((pc.id, a.(handle := None, revokeComplete := true, worker := None, verdict := verdict))), None, None)
  {
  }

  lemma WorkFitting(s: State, l: Label, pc: Pc, id: string)
    requires Ready(s, l, pc, id) && Works(l)
    ensures Fitting(s, WorkChange(s, l, pc, s.attempts[id]), Some(id), About(s, l, pc, s.attempts[id]))
  {
    hide Ready, Fitting, WorkChange, About;
    match l
    case OpenReturn(_, _, _) => OpenReturnFits(s, l, pc, id);
    case OpenFinish(_) => OpenFinishFits(s, l, pc, id);
    case BindReturn(_, _) => BindReturnFits(s, l, pc, id);
    case BindFinish(_) => BindFinishFits(s, l, pc, id);
    case RevokeReturn(_, _) => RevokeReturnFits(s, l, pc, id);
    case RevokeKill(_) => RevokeKillFits(s, l, pc, id);
    case RevokeKilled(_) => RevokeKilledFits(s, l, pc, id);
    case SignReturn(_, _) => SignReturnFits(s, l, pc, id);
    case RevokeFinish(_) => RevokeFinishFits(s, l, pc, id);
  }

  lemma WorkStep(s: State, l: Label)
    requires Enabled(s, l) && Works(l)
    ensures l.t in s.threads && WorksOn(s.threads[l.t]).Some? && Continues(s, l, s.threads[l.t])
    ensures var pc := s.threads[l.t];
            WorksOn(pc).value in s.attempts ==> Next(s, l) == Apply(s, WorkChange(s, l, pc, s.attempts[WorksOn(pc).value]))
  {
    hide Apply, WorkChange;
  }

  lemma AroundHas(s: State, t: Thread, id: string)
    requires Around(s, t, id)
    ensures t in s.threads && id in s.attempts
  {
    hide ThreadOk, AttemptOk, HandleOk;
  }

  lemma WorkKeeps(s: State, l: Label)
    requires Inv(s) && Enabled(s, l) && Works(l)
    ensures Inv(Next(s, l))
  {
    hide Inv, Around, Fitting, Apply, WorkChange, Next, About, Enabled, Continues, Works;
    WorkStep(s, l);
    var pc := s.threads[l.t];
    var id := WorksOn(pc).value;
    InAround(s, l.t);
    AroundHas(s, l.t, id);
    WorkFitting(s, l, pc, id);
    ApplyKeeps(s, WorkChange(s, l, pc, s.attempts[id]), Some(id), About(s, l, pc, s.attempts[id]));
  }

  // ---------------------------------------------------------------- callers that look

  /** While somebody works on an attempt it is not ready for anybody else. */
  lemma WorkerBlocks(s: State, id: string)
    requires Inv(s) && id in s.attempts && s.attempts[id].worker.Some?
    ensures var a := s.attempts[id];
            !a.openComplete || (a.bindStarted && !a.bindComplete) || (a.revokeStarted && !a.revokeComplete)
  {
    assert AttemptOk(s, id);
    assert ThreadOk(s, s.attempts[id].worker.value);
  }

  /** What the invariant says about a caller at the top of its loop and the attempt it looks at. */
  predicate Idle(s: State, t: Thread, id: string) {
    && t in s.threads && s.threads[t].Looking? && s.destroyer != Some(t) && !s.drained && !s.destroyed && id in s.attempts && AttemptOk(s, id)
    && s.attempts[id].worker == None
    && (s.attempts[id].handle.Some? ==> s.attempts[id].handle.value in s.ledger && HandleOk(s, s.attempts[id].handle.value))
    && s.nextHandle !in s.ledger
  }

  lemma InIdle(s: State, t: Thread, id: string)
    requires Inv(s) && t in s.threads && s.threads[t].Looking? && !s.destroyed && id in s.attempts
    requires var a := s.attempts[id]; a.openComplete && (a.bindStarted ==> a.bindComplete) && (a.revokeStarted ==> a.revokeComplete)
    ensures Idle(s, t, id)
  {
    FreshHandle(s);
    assert AttemptOk(s, id) && GlobalOk(s);
    var a := s.attempts[id];
    if a.handle.Some? { assert HandleOk(s, a.handle.value); }
    assert a.worker == None by { if a.worker.Some? { WorkerBlocks(s, id); } }
    hide Inv, AttemptOk, HandleOk;
  }

  lemma BindStartFits(s: State, t: Thread, call: Call)
    requires call.BindCall? && Idle(s, t, call.id)
    requires var a := s.attempts[call.id]; !a.revokeStarted && !a.openErr && a.handle.Some? && !a.bindStarted
    ensures Fitting(s, LookBind(s, t, call, true), Some(call.id), s.attempts[call.id].handle)
  {
    hide Recount;
  }

  lemma BindRefuseFits(s: State, t: Thread, call: Call)
    requires call.BindCall? && Idle(s, t, call.id)
    requires var a := s.attempts[call.id]; !a.revokeStarted && !a.openErr && a.handle.Some? && !a.bindStarted
    ensures Fitting(s, LookBind(s, t, call, false), Some(call.id), s.attempts[call.id].handle)
  {
    hide Recount;
  }

  lemma RevokeStartFits(s: State, t: Thread, call: Call)
    requires call.RevokeCall? && Idle(s, t, call.id) && !s.attempts[call.id].revokeStarted
    ensures Fitting(s, LookRevoke(s, t, call), Some(call.id), s.attempts[call.id].handle)
  {
    hide Recount;
    var a := s.attempts[call.id];
    if a.handle.Some? {
      RevokeHandleFits(s, t, call);
    }
  }

  lemma RevokeHandleFits(s: State, t: Thread, call: Call)
    requires call.RevokeCall? && Idle(s, t, call.id) && !s.attempts[call.id].revokeStarted && s.attempts[call.id].handle.Some?
    ensures Fitting(s, LookRevoke(s, t, call), Some(call.id), s.attempts[call.id].handle)
  {
    hide Recount;
    var a := s.attempts[call.id];
    var n := Apply(s, LookRevoke(s, t, call));
    var e := s.ledger[a.handle.value];
    assert n.attempts[call.id] == a.(revokeStarted := true, worker := Some(t)) && n.threads[t] == Revoking(call.id, a.handle.value);
    assert n.ledger[a.handle.value] == e.(revokes := e.revokes + 1, revoking := true);
  }

  lemma OpenStartFits(s: State, t: Thread, r: Request)
    requires t in s.threads && s.threads[t].Looking? && s.destroyer != Some(t) && !s.destroyed && !s.drained
    requires r.attempt.attemptID !in s.attempts && r.attempt.attemptID !in s.verdicts
    ensures Fitting(s, LookOpen(s, t, r), Some(r.attempt.attemptID), None)
  {
    hide Recount;
  }

  /** A caller that only waits, or returns, touches nothing. */
  lemma QuietFits(s: State, c: Change)
    requires c.t in s.threads && !HoldsOperation(s.threads[c.t]) && s.destroyer != Some(c.t)
    requires c.attempt.None? && c.entry.None? && (c.reply.Some? ==> ReplyOk(s, c.reply.value))
    requires c.pc.Some? ==> !HoldsOperation(c.pc.value) && !c.pc.value.DestroyWaiting? && !c.pc.value.Draining? && !c.pc.value.DrainDying? && WaiterOk(s, c.pc.value)
    requires Kills(s.threads[c.t]) == None
    ensures Fitting(s, c, None, None)
  {
    hide Recount;
  }

  predicate StartsOpen(s: State, r: Request) {
    !s.destroyed && r.attempt.attemptID !in s.attempts
  }

  predicate StartsBind(s: State, call: Call)
    requires call.BindCall?
  {
    && !s.destroyed && call.id in s.attempts
    && var a := s.attempts[call.id];
    && !a.revokeStarted && !a.revokeComplete && a.openComplete && !a.openErr && a.handle.Some? && !a.bindComplete && !a.bindStarted
  }

  predicate StartsRevoke(s: State, call: Call)
    requires call.RevokeCall?
  {
    && !s.destroyed && call.id in s.attempts
    && var a := s.attempts[call.id];
    && a.openComplete && !(a.bindStarted && !a.bindComplete) && !a.revokeComplete && !a.revokeStarted
  }

  predicate Starts(s: State, call: Call) {
    match call
    case OpenCall(r) => StartsOpen(s, r)
    case BindCall(_, _) => StartsBind(s, call)
    case RevokeCall(_) => StartsRevoke(s, call)
  }

  /** Looking without starting anything: the caller waits or returns. */
  lemma LookQuiet(s: State, t: Thread, call: Call, capable: bool)
    requires Inv(s) && !Starts(s, call)
    ensures var c := LookChange(s, t, call, capable);
            && c.t == t && c.attempt.None? && c.entry.None? && (c.reply.Some? ==> ReplyOk(s, c.reply.value))
            && (c.pc.Some? ==> !HoldsOperation(c.pc.value) && Awaits(c.pc.value) && WaiterOk(s, c.pc.value))
  {
    if call.RevokeCall? && call.id in s.attempts { assert AttemptOk(s, call.id); }
    hide Inv, AttemptShape;
  }

  lemma LookStarts(s: State, t: Thread, call: Call, capable: bool)
    requires Inv(s) && t in s.threads && s.threads[t].Looking? && s.destroyer != Some(t) && Starts(s, call)
    ensures Inv(Apply(s, LookChange(s, t, call, capable)))
  {
    assert GlobalOk(s);
    match call {
      case OpenCall(r) =>
        hide Inv, Fitting, LookOpen, Apply;
        OpenStartFits(s, t, r);
        ApplyKeeps(s, LookOpen(s, t, r), Some(r.attempt.attemptID), None);
      case BindCall(id, _) =>
        InIdle(s, t, id);
        hide Inv, Fitting, LookBind, Apply, Idle;
        if capable { BindStartFits(s, t, call); } else { BindRefuseFits(s, t, call); }
        ApplyKeeps(s, LookBind(s, t, call, capable), Some(id), s.attempts[id].handle);
      case RevokeCall(id) =>
        ShapeAt(s, id);
        InIdle(s, t, id);
        hide Inv, Fitting, LookRevoke, Apply, Idle;
        RevokeStartFits(s, t, call);
        ApplyKeeps(s, LookRevoke(s, t, call), Some(id), s.attempts[id].handle);
    }
  }

  lemma ShapeAt(s: State, id: string)
    requires Inv(s) && id in s.attempts
    ensures AttemptShape(s.attempts[id])
  {
    assert AttemptOk(s, id);
  }

  lemma LookKeeps(s: State, l: Label)
    requires Inv(s) && Enabled(s, l) && l.Look?
    ensures Inv(Next(s, l))
  {
    var call, c := s.threads[l.t].call, LookChange(s, l.t, s.threads[l.t].call, l.capable);
    NotDestroyer(s, l.t);
    hide Inv, LookChange, Apply, Fitting, Starts, ReplyOk, WaiterOk;
    if Starts(s, call) {
      LookStarts(s, l.t, call, l.capable);
    } else {
      LookQuiet(s, l.t, call, l.capable);
      QuietFits(s, c);
      ApplyKeeps(s, c, None, None);
    }
  }

  /** Only the caller that began the destruction carries it out, and it does nothing else. */
  lemma NotDestroyer(s: State, t: Thread)
    requires Inv(s) && t in s.threads && !s.threads[t].DestroyWaiting? && !s.threads[t].Draining? && !s.threads[t].DrainDying?
    ensures s.destroyer != Some(t)
  {
    assert ThreadOk(s, t);
  }

  // ---------------------------------------------------------------- callers that come, wake and go

  lemma NewcomerFits(s: State, t: Thread, pc: Pc)
    requires t !in s.threads && s.destroyer != Some(t) && (HoldsOperation(pc) ==> !s.destroyed)
    requires pc.Looking? || pc.Verifying? || (pc.AwaitDestroy? && s.destroyed)
    ensures Fitting(s, Stay(t, pc), None, None)
  {
    hide Recount;
  }

  lemma ArriveKeeps(s: State, l: Label)
    requires Inv(s) && Enabled(s, l) && (l.Arrive? || l.VerifyStart? || l.DestroyJoin?)
    ensures Inv(Next(s, l))
  {
    assert GlobalOk(s);
    var pc := if l.Arrive? then Looking(l.call) else if l.VerifyStart? then Verifying else AwaitDestroy;
    hide Inv, Fitting, Apply;
    NewcomerFits(s, l.t, pc);
    ApplyKeeps(s, Stay(l.t, pc), None, None);
  }

  lemma WakeFits(s: State, l: Label, pc: Pc)
    requires l.t in s.threads && s.threads[l.t] == pc && Continues(s, l, pc) && s.destroyer != Some(l.t)
    requires l.WakeDone? || l.WakeGone? || l.WakeCanceled? || l.DestroyLeave?
    ensures Fitting(s, PlainChange(s, l, pc), None, None)
  {
    hide Recount;
  }

  lemma AbortFits(s: State, l: Label, pc: Pc)
    requires l.t in s.threads && s.threads[l.t] == pc && Continues(s, l, pc) && s.destroyer != Some(l.t) && ThreadOk(s, l.t)
    requires (l.AbortStart? || l.AbortEnd?) && pc.h in s.ledger && HandleOk(s, pc.h) && s.nextHandle !in s.ledger
    ensures Fitting(s, PlainChange(s, l, pc), None, Some(pc.h))
  {
    hide Concerns, Orderly, PlainChange, ThreadOk, HandleOk, Continues;
    AbortConcerns(s, l, pc);
    AbortOrderly(s, l, pc);
  }

  lemma AbortConcerns(s: State, l: Label, pc: Pc)
    requires l.t in s.threads && s.threads[l.t] == pc && Continues(s, l, pc) && s.destroyer != Some(l.t) && ThreadOk(s, l.t)
    requires (l.AbortStart? || l.AbortEnd?) && pc.h in s.ledger && HandleOk(s, pc.h)
    ensures Concerns(s, PlainChange(s, l, pc), None, Some(pc.h))
  {
    hide Recount;
  }

  lemma AbortOrderly(s: State, l: Label, pc: Pc)
    requires l.t in s.threads && s.threads[l.t] == pc && Continues(s, l, pc) && s.destroyer != Some(l.t) && ThreadOk(s, l.t)
    requires (l.AbortStart? || l.AbortEnd?) && pc.h in s.ledger && HandleOk(s, pc.h) && s.nextHandle !in s.ledger
    ensures Orderly(s, PlainChange(s, l, pc), None, Some(pc.h))
  {
    hide *;
    if l.AbortStart? { AbortStartOrderly(s, l, pc); } else { AbortEndOrderly(s, l, pc); }
  }

  lemma AbortStartOrderly(s: State, l: Label, pc: Pc)
    requires l.t in s.threads && s.threads[l.t] == pc && Continues(s, l, pc) && s.destroyer != Some(l.t) && ThreadOk(s, l.t)
    requires l.AbortStart? && pc.h in s.ledger && HandleOk(s, pc.h) && s.nextHandle !in s.ledger
    ensures Orderly(s, PlainChange(s, l, pc), None, Some(pc.h))
  {
    hide Recount;
  }

  lemma AbortEndOrderly(s: State, l: Label, pc: Pc)
    requires l.t in s.threads && s.threads[l.t] == pc && Continues(s, l, pc) && s.destroyer != Some(l.t) && ThreadOk(s, l.t)
    requires l.AbortEnd? && pc.h in s.ledger && HandleOk(s, pc.h) && s.nextHandle !in s.ledger
    ensures Orderly(s, PlainChange(s, l, pc), None, Some(pc.h))
  {
    hide Recount;
  }

  lemma LeaveFits(s: State, l: Label, pc: Pc)
    requires l.t in s.threads && s.threads[l.t] == pc && Continues(s, l, pc) && s.destroyer != Some(l.t) && ThreadOk(s, l.t)
    requires l.Done? || l.VerifyReturn?
    ensures Fitting(s, PlainChange(s, l, pc), None, None)
  {
    hide Recount;
  }

  lemma PlainStep(s: State, l: Label)
    requires Enabled(s, l) && Plain(l)
    ensures l.t in s.threads && Continues(s, l, s.threads[l.t])
    ensures Next(s, l) == Apply(s, PlainChange(s, l, s.threads[l.t]))
    ensures var pc := s.threads[l.t]; !pc.DestroyWaiting? && !pc.Draining? && !pc.DrainDying?
    ensures l.AbortStart? ==> s.threads[l.t].Aborting?
    ensures l.AbortEnd? ==> s.threads[l.t].AbortDying?
  {
    hide Apply, PlainChange;
  }

  lemma AbortHandle(s: State, t: Thread)
    requires Inv(s) && t in s.threads && (s.threads[t].Aborting? || s.threads[t].AbortDying?)
    ensures ThreadOk(s, t) && s.threads[t].h in s.ledger && HandleOk(s, s.threads[t].h) && s.nextHandle !in s.ledger
  {
    assert ThreadOk(s, t);
    assert HandleOk(s, s.threads[t].h);
    FreshHandle(s);
  }

  lemma PlainKeeps(s: State, l: Label)
    requires Inv(s) && Enabled(s, l) && Plain(l)
    ensures Inv(Next(s, l))
  {
    PlainStep(s, l);
    var pc := s.threads[l.t];
    NotDestroyer(s, l.t);
    assert ThreadOk(s, l.t);
    hide Inv, Apply, Fitting, PlainChange, Next, Enabled, Continues, ThreadOk, HandleOk;
    if l.AbortStart? || l.AbortEnd? {
      AbortHandle(s, l.t);
      AbortFits(s, l, pc);
      ApplyKeeps(s, PlainChange(s, l, pc), None, Some(pc.h));
    } else {
      if l.Done? || l.VerifyReturn? { LeaveFits(s, l, pc); } else { WakeFits(s, l, pc); }
      ApplyKeeps(s, PlainChange(s, l, pc), None, None);
    }
  }

  // ---------------------------------------------------------------- Destroy

  lemma BusyNewcomer(threads: map<Thread, Pc>, t: Thread, pc: Pc)
    requires t !in threads && !HoldsOperation(pc)
    ensures Busy(threads[t := pc]) == Busy(threads)
  {
    hide HoldsOperation;
  }

  lemma DestroyStartGlobal(s: State, n: State, t: Thread)
    requires GlobalOk(s) && t !in s.threads && !s.destroyed
    requires n == s.(destroyed := true, destroyer := Some(t), threads := s.threads[t := DestroyWaiting])
    ensures GlobalOk(n)
  {
    BusyNewcomer(s.threads, t, DestroyWaiting);
    hide Busy, HoldsOperation;
  }

  lemma DestroyStartThread(s: State, l: Label, u: Thread)
    requires Inv(s) && Enabled(s, l) && l.DestroyStart? && u in Next(s, l).threads
    ensures ThreadOk(Next(s, l), u)
  {
    assert GlobalOk(s);
    if u != l.t { assert ThreadOk(s, u); }
    hide Inv, GlobalOk;
  }

  lemma DestroyStartRest(s: State, n: State, t: Thread)
    requires Inv(s) && t !in s.threads && !s.destroyed
    requires n == s.(destroyed := true, destroyer := Some(t), threads := s.threads[t := DestroyWaiting])
    ensures forall i | i in n.attempts :: AttemptOk(n, i)
    ensures forall k | k in n.ledger :: HandleOk(n, k)
    ensures LogOk(n)
  {
    assert GlobalOk(s) && LogOk(s);
    forall i | i in n.attempts ensures AttemptOk(n, i) {
      assert AttemptOk(s, i);
    }
    forall k | k in n.ledger ensures HandleOk(n, k) {
      assert HandleOk(s, k);
    }
    forall i | 0 <= i < |n.log| ensures ReplyOk(n, n.log[i]) {
      assert ReplyOk(s, s.log[i]);
    }
  }

  lemma DestroyStartKeeps(s: State, l: Label)
    requires Inv(s) && Enabled(s, l) && l.DestroyStart?
    ensures Inv(Next(s, l))
  {
    var n := Next(s, l);
    assert GlobalOk(s);
    DestroyStartGlobal(s, n, l.t);
    DestroyStartRest(s, n, l.t);
    forall u | u in n.threads ensures ThreadOk(n, u) {
      DestroyStartThread(s, l, u);
    }
    hide GlobalOk, ThreadOk, AttemptOk, HandleOk, LogOk;
  }

  lemma WorkerIsBusy(s: State, id: string)
    requires Inv(s) && id in s.attempts && s.attempts[id].worker.Some?
    ensures s.operations > 0
  {
    assert AttemptOk(s, id);
    assert GlobalOk(s);
    assert s.attempts[id].worker.value in Busy(s.threads);
  }

  lemma OwnerIsBusy(s: State, h: HandleID)
    requires Inv(s) && h in s.ledger && (s.ledger[h].place.WithThread? || s.ledger[h].place.Dying?) && !s.drained
    ensures s.operations > 0
  {
    assert HandleOk(s, h);
    assert GlobalOk(s);
    assert ThreadOk(s, s.ledger[h].place.thread);
    assert s.ledger[h].place.thread in Busy(s.threads);
  }

  /** When nothing is in progress, every live handle sits in an attempt that nobody works on. */
  lemma AllQuiet(s: State)
    requires Inv(s) && s.operations == 0 && !s.drained
    ensures Busy(s.threads) == {}
    ensures forall id | id in s.attempts :: s.attempts[id].worker == None
    ensures forall h | h in s.ledger ::
              !s.ledger[h].place.WithThread? && !s.ledger[h].place.Dying? && !s.ledger[h].revoking && !s.ledger[h].binding
  {
    assert GlobalOk(s);
    forall id | id in s.attempts ensures s.attempts[id].worker == None {
      if s.attempts[id].worker.Some? { WorkerIsBusy(s, id); }
    }
    forall h | h in s.ledger
      ensures !s.ledger[h].place.WithThread? && !s.ledger[h].place.Dying? && !s.ledger[h].revoking && !s.ledger[h].binding
    {
      assert HandleOk(s, h);
      if s.ledger[h].place.WithThread? || s.ledger[h].place.Dying? { OwnerIsBusy(s, h); }
    }
  }

  lemma CollectGlobal(s: State, l: Label)
    requires GlobalOk(s) && Enabled(s, l) && l.DestroyCollect? && ThreadOk(s, l.t) && Busy(s.threads) == {}
    ensures GlobalOk(Next(s, l))
  {
    var n, c := Next(s, l), Stay(l.t, Draining(Handles(s.attempts)));
    BusyPlaced(s.threads, c);
    assert n.threads == Placed(s.threads, c);
    assert Busy(n.threads) == {};
    hide Busy, Handles, Collected, Placed, WorkFits, WaiterOk;
  }

  /** A handle still stored when everything is quiet has not been destroyed: its revocation has not begun. */
  lemma QuietHandle(s: State, id: string)
    requires Inv(s) && s.operations == 0 && !s.drained && id in s.attempts && s.attempts[id].handle.Some?
    ensures At(s, s.attempts[id].handle.value, InAttempt)
  {
    AllQuiet(s);
    assert AttemptOk(s, id);
  }

  lemma CollectedHandle(s: State, l: Label, h: HandleID)
    requires Inv(s) && Enabled(s, l) && l.DestroyCollect? && h in s.ledger
    ensures h in Next(s, l).ledger && HandleOk(Next(s, l), h)
    ensures h in Handles(s.attempts) ==> Next(s, l).ledger[h].place == InDrain
  {
    assert ThreadOk(s, l.t) && HandleOk(s, h);
    AllQuiet(s);
    if s.ledger[h].place == InAttempt { assert s.attempts[s.ledger[h].attempt].handle.value in Handles(s.attempts); }
    if h in Handles(s.attempts) {
      var id :| id in s.attempts && s.attempts[id].handle == Some(h);
      assert AttemptOk(s, id);
      QuietHandle(s, id);
    }
  }

  lemma HandlesKnown(s: State, h: HandleID)
    requires Inv(s) && h in Handles(s.attempts)
    ensures h in s.ledger
  {
    var id :| id in s.attempts && s.attempts[id].handle == Some(h);
    assert AttemptOk(s, id);
  }

  lemma CollectThread(s: State, l: Label)
    requires Inv(s) && Enabled(s, l) && l.DestroyCollect?
    ensures l.t in Next(s, l).threads && ThreadOk(Next(s, l), l.t)
  {
    var n := Next(s, l);
    assert ThreadOk(s, l.t) && GlobalOk(s);
    forall h | h in Handles(s.attempts) ensures At(n, h, InDrain) {
      HandlesKnown(s, h);
      CollectedHandle(s, l, h);
    }
    hide Handles, Collected, Inv, At, WorkFits, WaiterOk;
  }

  /** While the broker is drained, all callers but the destroyer wait or are about to return. */
  lemma OnlookerFits(s: State, n: State, u: Thread)
    requires u in s.threads && ThreadOk(s, u) && !HoldsOperation(s.threads[u]) && s.destroyer != Some(u) && s.destroyed
    requires u in n.threads && n.threads[u] == s.threads[u] && n.destroyed && n.destroyer == s.destroyer
    ensures ThreadOk(n, u)
  {
  }

  lemma DestroyCollectKeeps(s: State, l: Label)
    requires Inv(s) && Enabled(s, l) && l.DestroyCollect?
    ensures Inv(Next(s, l))
  {
    var n := Next(s, l);
    assert ThreadOk(s, l.t) && GlobalOk(s) && LogOk(s);
    AllQuiet(s);
    CollectGlobal(s, l);
    CollectThread(s, l);
    forall u | u in n.threads ensures ThreadOk(n, u) {
      if u != l.t {
        assert u !in Busy(s.threads);
        assert ThreadOk(s, u);
        OnlookerFits(s, n, u);
      }
    }
    forall h | h in n.ledger ensures HandleOk(n, h) {
      CollectedHandle(s, l, h);
    }
    forall i | 0 <= i < |n.log| ensures ReplyOk(n, n.log[i]) {
      assert ReplyOk(s, s.log[i]);
    }
    hide ThreadOk, HandleOk, GlobalOk, Handles;
  }

  lemma DrainGlobal(s: State, c: Change)
    requires GlobalOk(s) && s.drained && c.t in s.threads && s.destroyer == Some(c.t) && !HoldsOperation(s.threads[c.t])
    requires c.pc.Some? && (c.pc.value.Draining? || c.pc.value.DrainDying?) && c.attempt.None? && c.reply.None?
    ensures GlobalOk(Apply(s, c))
  {
    BusyCounts(s, c);
    BusyPlaced(s.threads, c);
    hide Busy, Recount;
  }

  lemma DrainHandle(s: State, n: State, t: Thread, h: HandleID, k: HandleID)
    requires k in s.ledger && HandleOk(s, k) && k != h && s.drained && s.destroyer == Some(t) && t in s.threads && t in n.threads
    requires s.attempts == map[] && n.attempts == map[] && n.destroyer == s.destroyer && n.nextHandle >= s.nextHandle
    requires k in n.ledger && n.ledger[k] == s.ledger[k]
    requires (s.threads[t].Draining? || s.threads[t].DrainDying?) && (n.threads[t].Draining? || n.threads[t].DrainDying?)
    requires forall j | j in s.threads[t].left && j != h :: j in n.threads[t].left
    requires Kills(s.threads[t]) != Some(k)
    requires forall u | u in s.threads && u != t :: u in n.threads && n.threads[u] == s.threads[u]
    ensures HandleOk(n, k)
  {
  }

  lemma DrainStartKeeps(s: State, l: Label)
    requires Inv(s) && Enabled(s, l) && l.DrainStart?
    ensures Inv(Next(s, l))
  {
    assert ThreadOk(s, l.t) && GlobalOk(s) && LogOk(s);
    FreshHandle(s);
    var c := Change(l.t, Some(DrainDying(s.threads[l.t].left - {l.h}, l.h)), None, Edit(s, l.h, dying(l.t)), None);
    var n := Apply(s, c);
    DrainGlobal(s, c);
    assert HandleOk(s, l.h);
    DrainOthers(s, n, l.t);
    forall k | k in n.ledger ensures HandleOk(n, k) {
      if k != l.h {
        assert HandleOk(s, k);
        DrainHandle(s, n, l.t, l.h, k);
      }
    }
    ApplyLog(s, c);
    hide GlobalOk, HandleOk, LogOk;
  }

  lemma DrainOthers(s: State, n: State, t: Thread)
    requires Inv(s) && s.drained && s.destroyer == Some(t) && n.destroyed && n.destroyer == s.destroyer
    requires forall u | u != t :: u in n.threads <==> u in s.threads
    requires forall u | u != t && u in s.threads :: n.threads[u] == s.threads[u]
    ensures forall u | u in n.threads && u != t :: ThreadOk(n, u)
  {
    assert GlobalOk(s);
    forall u | u in n.threads && u != t ensures ThreadOk(n, u) {
      assert ThreadOk(s, u);
      assert u !in Busy(s.threads);
      OnlookerFits(s, n, u);
    }
  }

  lemma DrainEndKeeps(s: State, l: Label)
    requires Inv(s) && Enabled(s, l) && l.DrainEnd?
    ensures Inv(Next(s, l))
  {
    assert ThreadOk(s, l.t) && GlobalOk(s) && LogOk(s);
    FreshHandle(s);
    var h := s.threads[l.t].h;
    var c := Change(l.t, Some(Draining(s.threads[l.t].left)), None, Edit(s, h, gone), None);
    var n := Apply(s, c);
    DrainGlobal(s, c);
    assert HandleOk(s, h);
    DrainOthers(s, n, l.t);
    forall k | k in n.ledger ensures HandleOk(n, k) {
      if k != h {
        assert HandleOk(s, k);
        DrainHandle(s, n, l.t, h, k);
      }
    }
    ApplyLog(s, c);
    hide GlobalOk, HandleOk, LogOk;
  }

  lemma DestroyFinishKeeps(s: State, l: Label)
    requires Inv(s) && Enabled(s, l) && l.DestroyFinish?
    ensures Inv(Next(s, l))
  {
    FinishGlobal(s, l);
    FinishDrained(s, l);
    hide ThreadOk, HandleOk, GlobalOk, LogOk;
    DrainOthers(s, Next(s, l), l.t);
    forall h | h in Next(s, l).ledger ensures HandleOk(Next(s, l), h) { FinishHandle(s, l, h); }
  }

  lemma FinishDrained(s: State, l: Label)
    requires Inv(s) && Enabled(s, l) && l.DestroyFinish?
    ensures s.drained && s.destroyed && s.destroyer == Some(l.t) && s.attempts == map[] && LogOk(Next(s, l))
  {
    assert ThreadOk(s, l.t) && GlobalOk(s) && LogOk(s);
    hide WorkFits, WaiterOk, Busy, HandleOk, AttemptOk;
    forall i | 0 <= i < |s.log| ensures ReplyOk(Next(s, l), s.log[i]) { assert ReplyOk(s, s.log[i]); }
  }

  lemma FinishGlobal(s: State, l: Label)
    requires Inv(s) && Enabled(s, l) && l.DestroyFinish?
    ensures GlobalOk(Next(s, l))
  {
    assert ThreadOk(s, l.t) && GlobalOk(s);
    BusyPlaced(s.threads, Change(l.t, None, None, None, None));
    hide Inv, WorkFits, WaiterOk, Busy;
  }

  lemma FinishHandle(s: State, l: Label, h: HandleID)
    requires Inv(s) && Enabled(s, l) && l.DestroyFinish? && h in s.ledger
    ensures HandleOk(Next(s, l), h)
  {
    assert ThreadOk(s, l.t) && GlobalOk(s) && HandleOk(s, h);
    hide Inv, WorkFits, WaiterOk, Busy;
  }

  // ---------------------------------------------------------------- every step, every run

  lemma StepKeeps(s: State, l: Label)
    requires Inv(s) && Enabled(s, l)
    ensures Inv(Next(s, l))
  {
    hide Inv, Enabled, Next;
    match l
    case Arrive(_, _) => ArriveKeeps(s, l);
    case VerifyStart(_) => ArriveKeeps(s, l);
    case DestroyJoin(_) => ArriveKeeps(s, l);
    case Look(_, _) => LookKeeps(s, l);
    case DestroyStart(_) => DestroyStartKeeps(s, l);
    case DestroyCollect(_) => DestroyCollectKeeps(s, l);
    case DrainStart(_, _) => DrainStartKeeps(s, l);
    case DrainEnd(_) => DrainEndKeeps(s, l);
    case DestroyFinish(_) => DestroyFinishKeeps(s, l);
    case _ => if Plain(l) { PlainKeeps(s, l); } else { WorkKeeps(s, l); }
  }

  predicate Legal(s: State, ls: seq<Label>)
    decreases |ls|
  {
    |ls| > 0 ==> Enabled(s, ls[0]) && Legal(Next(s, ls[0]), ls[1..])
  }

  function Run(s: State, ls: seq<Label>): State
    requires Legal(s, ls)
    decreases |ls|
  {
    if |ls| == 0 then s else Run(Next(s, ls[0]), ls[1..])
  }

  lemma {:induction false} RunKeeps(s: State, ls: seq<Label>)
    requires Inv(s) && Legal(s, ls)
    ensures Inv(Run(s, ls))
    decreases |ls|
  {
    hide Inv, Enabled, Next;
    if |ls| > 0 {
      StepKeeps(s, ls[0]);
      RunKeeps(Next(s, ls[0]), ls[1..]);
    }
  }

  lemma InitialIsFine()
    ensures Inv(Initial)
  {
  }
}
