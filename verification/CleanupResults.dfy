/** What every interleaving of callers of the cleanup broker guarantees: who owns a handle, and what is replied. */
module CleanupResults {
  import opened Options
  import opened Text
  import opened CleanupProofs
  import opened CleanupBrokers
  import opened CleanupSteps

  // ---------------------------------------------------------------- handles

  /**
   Over every interleaving: Revoke is called on a handle at most once and never while its runtime is being bound. Destroy
   is called at most once, never while Revoke or BindRuntime runs, and once the broker's Destroy has returned - to
   whomever called it - every handle ever opened has been destroyed, and none is being destroyed any more.
   */
  lemma EveryHandleIsOwned(ls: seq<Label>, h: HandleID)
    requires Legal(Initial, ls) && h in Run(Initial, ls).ledger
    ensures var s := Run(Initial, ls);
            var e := s.ledger[h];
            && e.revokes <= 1 && e.destroys <= 1 && !(e.revoking && e.binding)
            && (e.destroys == 1 ==> !e.revoking && !e.binding && (e.place.Dying? || e.place == Gone))
            && (e.place.Dying? ==> e.destroys == 1)
            && (s.destroyDone ==> e.destroys == 1 && e.place == Gone)
  {
    InitialIsFine();
    RunKeeps(Initial, ls);
    var s := Run(Initial, ls);
    assert HandleOk(s, h) && GlobalOk(s);
    if s.destroyDone { DrainedIsGone(s, h); }
    hide Run, Inv;
  }

  lemma DrainedIsGone(s: State, h: HandleID)
    requires Inv(s) && s.destroyDone && h in s.ledger
    ensures s.ledger[h].place == Gone
  {
    assert HandleOk(s, h) && GlobalOk(s);
    if s.ledger[h].place.InDrain? || s.ledger[h].place.Dying? || s.ledger[h].place.WithThread? { OwnedIsNotDone(s, h); }
  }

  /** As long as a caller owns a handle, or is destroying it, the broker's Destroy has not returned. */
  lemma OwnedIsNotDone(s: State, h: HandleID)
    requires Inv(s) && h in s.ledger && !s.ledger[h].place.InAttempt? && s.ledger[h].place != Gone
    ensures !s.destroyDone
  {
    assert HandleOk(s, h) && GlobalOk(s);
    var t := if s.ledger[h].place.InDrain? then s.destroyer.value else s.ledger[h].place.thread;
    assert ThreadOk(s, t);
    assert HoldsOperation(s.threads[t]) ==> t in Busy(s.threads);
  }

  lemma OneOpenPerAttempt(ls: seq<Label>, id: string)
    requires Legal(Initial, ls) && id in Run(Initial, ls).opens
    ensures Run(Initial, ls).opens[id] == 1
  {
    InitialIsFine();
    RunKeeps(Initial, ls);
    assert GlobalOk(Run(Initial, ls));
  }

  // ---------------------------------------------------------------- replies

  /**
   Over every interleaving, any two calls of RevokeAttempt for one attempt that are answered with a proof or a signing
   error are answered with the same one, whether they did the work, waited for it or came later.
   */
  lemma AnswersAgree(ls: seq<Label>, i: nat, j: nat)
    requires Legal(Initial, ls)
    requires var log := Run(Initial, ls).log; i < |log| && j < |log| && log[i].0 == log[j].0 && log[i].1.Answer? && log[j].1.Answer?
    ensures Run(Initial, ls).log[i] == Run(Initial, ls).log[j]
  {
    InitialIsFine();
    RunKeeps(Initial, ls);
    var s := Run(Initial, ls);
    assert LogOk(s);
    assert ReplyOk(s, s.log[i]) && ReplyOk(s, s.log[j]);
    hide Run, Inv;
  }

  /**
   As long as nobody has called Destroy, a call is answered with the attempt's one verdict unless its own context ended
   while it waited or it asked for an attempt the broker did not know.
   */
  lemma RepliesBeforeDestroy(ls: seq<Label>, i: nat)
    requires Legal(Initial, ls) && !Run(Initial, ls).destroyed && i < |Run(Initial, ls).log|
    ensures var s := Run(Initial, ls);
            var (id, reply) := s.log[i];
            || reply == Canceled || reply == Unknown
            || (id in s.attempts && s.attempts[id].revokeComplete && reply == Answer(s.attempts[id].verdict))
  {
    InitialIsFine();
    RunKeeps(Initial, ls);
    var s := Run(Initial, ls);
    assert LogOk(s) && GlobalOk(s);
    assert ReplyOk(s, s.log[i]);
    if s.log[i].0 in s.attempts { assert AttemptOk(s, s.log[i].0); }
    hide Run, Inv;
  }

  /** Only an attempt that was never opened is unknown. */
  lemma UnknownMeansUnopened(s: State, l: Label, r: (string, Reply))
    requires Inv(s) && Enabled(s, l) && Next(s, l).log == s.log + [r] && r.1 == Unknown
    ensures r.0 !in s.opens
  {
    AddedReply(s, l);
    assert GlobalOk(s);
    if l.Look? { LookUnknown(s, l.t, s.threads[l.t].call, l.capable); }
    else if Plain(l) { PlainStep(s, l); PlainUnknown(s, l); }
    assert Next(s, l).log[|s.log|] == r;
    hide Inv, Next, Enabled, LookChange, PlainChange;
  }

  /** Replies are recorded by callers that look, wake or leave. */
  lemma AddedReply(s: State, l: Label)
    requires Enabled(s, l)
    ensures l.t !in s.threads ==> Next(s, l).log == s.log
    ensures l.t in s.threads && l.Look? ==>
              var c := LookChange(s, l.t, s.threads[l.t].call, l.capable); Next(s, l).log == if c.reply.Some? then s.log + [c.reply.value] else s.log
    ensures l.t in s.threads && Plain(l) ==>
              var c := PlainChange(s, l, s.threads[l.t]); Next(s, l).log == if c.reply.Some? then s.log + [c.reply.value] else s.log
    ensures !l.Look? && !Plain(l) ==> Next(s, l).log == s.log
  {
    hide LookChange, PlainChange, Recount, Placed, Edit, Handles, Collected;
    if Works(l) { WorkSaysNothing(s, l); }
  }

  lemma WorkSaysNothing(s: State, l: Label)
    requires Enabled(s, l) && Works(l)
    ensures Next(s, l).log == s.log
  {
    WorkStep(s, l);
    var pc := s.threads[l.t];
    if WorksOn(pc).value in s.attempts { WorkReply(s, l, pc, s.attempts[WorksOn(pc).value]); }
    hide WorkChange, Recount, Placed;
  }

  lemma WorkReply(s: State, l: Label, pc: Pc, a: Attempt)
    ensures WorkChange(s, l, pc, a).reply.None?
  {
    hide Edit;
  }

  lemma LookUnknown(s: State, t: Thread, call: Call, capable: bool)
    requires GlobalOk(s)
    ensures var c := LookChange(s, t, call, capable); c.reply.Some? && c.reply.value.1 == Unknown ==> c.reply.value.0 !in s.opens
  {
    hide Busy;
  }

  lemma PlainUnknown(s: State, l: Label)
    requires Inv(s) && Enabled(s, l) && Plain(l) && l.t in s.threads
    ensures var c := PlainChange(s, l, s.threads[l.t]); c.reply.Some? ==> c.reply.value.1 != Unknown
  {
    assert ThreadOk(s, l.t);
    hide Inv, Edit, WorkFits, WaiterOk, DestroyerOk;
  }

  /** REVOKED is on record only if the session had opened and its revocation succeeded, and the proof names the attempt's request. */
  lemma RevokedMeansBoth(ls: seq<Label>, id: string)
    requires Legal(Initial, ls) && id in Run(Initial, ls).attempts && Run(Initial, ls).attempts[id].verdict.Proved?
    ensures var a := Run(Initial, ls).attempts[id];
            && a.revokeComplete && a.verdict.proof.coordinates == a.request.coordinates && a.verdict.proof.attempt == a.request.attempt
            && a.request.attempt.attemptID == id
            && (a.verdict.proof.status == REVOKED ==> a.revokeOk && !a.openErr)
  {
    InitialIsFine();
    RunKeeps(Initial, ls);
    assert AttemptOk(Run(Initial, ls), id);
  }

  // ---------------------------------------------------------------- proofs

  /** What the authority returns when the broker asks it to sign. */
  ghost predicate SignedBy(sha: Hash, w: Authority, p: Proof) {
    SignProof(sha, w, Request(p.coordinates, p.attempt), p.status) == Some(p)
  }

  ghost predicate HonestSigner(sha: Hash, w: Authority, ls: seq<Label>) {
    forall l | l in ls :: l.SignReturn? && l.signed.Some? ==> SignedBy(sha, w, l.signed.value)
  }

  /** Every proof the broker holds, on record or about to be recorded, was signed by the authority. */
  ghost predicate ProofsSigned(sha: Hash, w: Authority, s: State) {
    && (forall id | id in s.verdicts :: s.verdicts[id].Proved? ==> SignedBy(sha, w, s.verdicts[id].proof))
    && (forall t | t in s.threads :: s.threads[t].Signed? && s.threads[t].signed.Some? ==> SignedBy(sha, w, s.threads[t].signed.value))
  }

  /** Whoever works on an attempt has something of it still to complete. */
  lemma WorkerLeavesOpen(s: State, id: string)
    requires Inv(s) && id in s.attempts && s.attempts[id].worker.Some?
    ensures !s.attempts[id].revokeComplete
  {
    WorkerBlocks(s, id);
    ShapeAt(s, id);
  }

  ghost predicate SignedIn(sha: Hash, w: Authority, pc: Pc) {
    pc.Signed? && pc.signed.Some? ==> SignedBy(sha, w, pc.signed.value)
  }

  /** A change whose verdict and whose caller carry only signed proofs keeps all proofs signed. */
  lemma ApplySigned(sha: Hash, w: Authority, s: State, c: Change)
    requires ProofsSigned(sha, w, s) && (c.pc.Some? ==> SignedIn(sha, w, c.pc.value))
    requires c.attempt.Some? && c.attempt.value.1.revokeComplete && c.attempt.value.1.verdict.Proved? ==>
               SignedBy(sha, w, c.attempt.value.1.verdict.proof)
    ensures ProofsSigned(sha, w, Apply(s, c))
  {
    hide SignedBy, Recount;
  }

  lemma WorkSigned(sha: Hash, w: Authority, s: State, l: Label, pc: Pc, a: Attempt)
    requires !a.revokeComplete && SignedIn(sha, w, pc) && Continues(s, l, pc)
    requires l.SignReturn? && l.signed.Some? ==> SignedBy(sha, w, l.signed.value)
    ensures var c := WorkChange(s, l, pc, a);
            && (c.pc.Some? ==> SignedIn(sha, w, c.pc.value))
            && (c.attempt.Some? && c.attempt.value.1.revokeComplete && c.attempt.value.1.verdict.Proved? ==>
                  SignedBy(sha, w, c.attempt.value.1.verdict.proof))
  {
    hide SignedBy, Edit, Certifies, Continues;
    if l.SignReturn? {
      SignReturned(s, l, pc, a);
      hide WorkChange;
    } else if l.RevokeFinish? {
      RevokeFinished(s, l, pc, a);
      hide WorkChange;
    } else {
      WorkUnsigned(s, l, pc, a);
      hide WorkChange;
    }
  }

  lemma SignReturned(s: State, l: Label, pc: Pc, a: Attempt)
    requires Continues(s, l, pc) && l.SignReturn?
    ensures var c := WorkChange(s, l, pc, a);
            c.attempt.None? && c.pc.Some? && c.pc.value.Signed? && c.pc.value.signed == l.signed
  {
    hide Certifies;
  }

  lemma RevokeFinished(s: State, l: Label, pc: Pc, a: Attempt)
    requires Continues(s, l, pc) && l.RevokeFinish?
    ensures var c := WorkChange(s, l, pc, a);
            && c.pc.Some? && !c.pc.value.Signed? && pc.Signed? && c.attempt.Some?
            && (c.attempt.value.1.verdict.Proved? ==> pc.signed == Some(c.attempt.value.1.verdict.proof))
  {
    hide Certifies;
  }

  lemma WorkUnsigned(s: State, l: Label, pc: Pc, a: Attempt)
    requires !a.revokeComplete && Continues(s, l, pc) && !l.SignReturn? && !l.RevokeFinish?
    ensures var c := WorkChange(s, l, pc, a);
            && (c.pc.Some? ==> c.pc.value == pc || !c.pc.value.Signed?)
            && (c.attempt.Some? ==> !c.attempt.value.1.revokeComplete)
  {
    hide Edit, Certifies;
  }

  lemma SignedAfterWork(sha: Hash, w: Authority, s: State, l: Label)
    requires Inv(s) && Enabled(s, l) && Works(l) && ProofsSigned(sha, w, s)
    requires l.SignReturn? && l.signed.Some? ==> SignedBy(sha, w, l.signed.value)
    ensures ProofsSigned(sha, w, Next(s, l))
  {
    WorkStep(s, l);
    var pc := s.threads[l.t];
    var id := WorksOn(pc).value;
    WorkedOn(s, l.t);
    WorkerLeavesOpen(s, id);
    hide Inv, WorkChange, Next, Enabled, Continues, Works, SignedBy, Apply, WorksOn;
    WorkSigned(sha, w, s, l, pc, s.attempts[id]);
    ApplySigned(sha, w, s, WorkChange(s, l, pc, s.attempts[id]));
  }

  lemma WorkedOn(s: State, t: Thread)
    requires Inv(s) && t in s.threads && WorksOn(s.threads[t]).Some?
    ensures WorksOn(s.threads[t]).value in s.attempts && s.attempts[WorksOn(s.threads[t]).value].worker == Some(t)
  {
    assert ThreadOk(s, t);
  }

  lemma SignedAfterLook(sha: Hash, w: Authority, s: State, l: Label)
    requires Inv(s) && Enabled(s, l) && l.Look? && ProofsSigned(sha, w, s)
    ensures ProofsSigned(sha, w, Next(s, l))
  {
    var call := s.threads[l.t].call;
    LookRecordsNothing(s, l.t, call, l.capable);
    hide Inv, LookChange, SignedBy, Apply;
    ApplySigned(sha, w, s, LookChange(s, l.t, call, l.capable));
  }

  lemma LookRecordsNothing(s: State, t: Thread, call: Call, capable: bool)
    requires Inv(s)
    ensures var c := LookChange(s, t, call, capable);
            (c.attempt.Some? ==> !c.attempt.value.1.revokeComplete) && (c.pc.Some? ==> !c.pc.value.Signed?)
  {
    if call.BindCall? && call.id in s.attempts { ShapeAt(s, call.id); }
    hide Inv;
  }

  lemma SignedAfterPlain(sha: Hash, w: Authority, s: State, l: Label)
    requires Enabled(s, l) && Plain(l) && ProofsSigned(sha, w, s)
    ensures ProofsSigned(sha, w, Next(s, l))
  {
    PlainStep(s, l);
    PlainSigned(sha, w, s, l);
    hide Next, Enabled, Continues, PlainChange, SignedBy, Apply;
    ApplySigned(sha, w, s, PlainChange(s, l, s.threads[l.t]));
  }

  lemma PlainSigned(sha: Hash, w: Authority, s: State, l: Label)
    requires l.t in s.threads && SignedIn(sha, w, s.threads[l.t])
    ensures var c := PlainChange(s, l, s.threads[l.t]); c.attempt.None? && (c.pc.Some? ==> SignedIn(sha, w, c.pc.value))
  {
    PlainPc(s, l, s.threads[l.t]);
    hide SignedBy, PlainChange;
  }

  lemma PlainPc(s: State, l: Label, pc: Pc)
    ensures var c := PlainChange(s, l, pc); c.attempt.None? && (c.pc.Some? ==> c.pc.value == pc || !c.pc.value.Signed?)
  {
    hide Edit;
  }

  lemma SignedAfterRest(sha: Hash, w: Authority, s: State, l: Label)
    requires Enabled(s, l) && !l.Look? && !Works(l) && !Plain(l) && ProofsSigned(sha, w, s)
    ensures ProofsSigned(sha, w, Next(s, l))
  {
    hide SignedBy, Apply, Edit, Handles, Collected;
    match l {
      case Arrive(t, call) => ApplySigned(sha, w, s, Stay(t, Looking(call)));
      case VerifyStart(t) => ApplySigned(sha, w, s, Stay(t, Verifying));
      case DestroyJoin(t) => ApplySigned(sha, w, s, Stay(t, AwaitDestroy));
      case DrainStart(t, h) => ApplySigned(sha, w, s, Change(t, Some(DrainDying(s.threads[t].left - {h}, h)), None, Edit(s, h, dying(t)), None));
      case DrainEnd(t) => ApplySigned(sha, w, s, Change(t, Some(Draining(s.threads[t].left)), None, Edit(s, s.threads[t].h, gone), None));
      case _ =>
    }
  }

  lemma {:induction false} SignedAlways(sha: Hash, w: Authority, s: State, ls: seq<Label>)
    requires Inv(s) && Legal(s, ls) && HonestSigner(sha, w, ls) && ProofsSigned(sha, w, s)
    ensures ProofsSigned(sha, w, Run(s, ls))
    decreases |ls|
  {
    hide Inv, Enabled, Next, SignedBy, ProofsSigned, Works, Plain;
    if |ls| > 0 {
      assert ls[0] in ls && forall l | l in ls[1..] :: l in ls;
      StepKeeps(s, ls[0]);
      if Works(ls[0]) { SignedAfterWork(sha, w, s, ls[0]); }
      else if ls[0].Look? { SignedAfterLook(sha, w, s, ls[0]); }
      else if Plain(ls[0]) { SignedAfterPlain(sha, w, s, ls[0]); }
      else { SignedAfterRest(sha, w, s, ls[0]); }
      SignedAlways(sha, w, Next(s, ls[0]), ls[1..]);
    }
  }

  /** With a correct authority, every proof that RevokeAttempt ever returns is one VerifyCleanupProof accepts. */
  lemma EveryReplyVerifies(sha: Hash, w: Authority, ls: seq<Label>, i: nat)
    requires CorrectAuthority(w) && Legal(Initial, ls) && HonestSigner(sha, w, ls)
    requires var log := Run(Initial, ls).log; i < |log| && log[i].1.Answer? && log[i].1.verdict.Proved?
    ensures Verifies(sha, w, Run(Initial, ls).log[i].1.verdict.proof)
  {
    InitialIsFine();
    RunKeeps(Initial, ls);
    InitialIsSigned(sha, w);
    SignedAlways(sha, w, Initial, ls);
    hide *;
    ReplyVerifies(sha, w, Run(Initial, ls), i);
  }

  lemma InitialIsSigned(sha: Hash, w: Authority)
    ensures ProofsSigned(sha, w, Initial)
  {
  }

  lemma ReplyVerifies(sha: Hash, w: Authority, s: State, i: nat)
    requires CorrectAuthority(w) && Inv(s) && ProofsSigned(sha, w, s) && i < |s.log| && s.log[i].1.Answer? && s.log[i].1.verdict.Proved?
    ensures Verifies(sha, w, s.log[i].1.verdict.proof)
  {
    RecordedIsSigned(sha, w, s, i);
    var p := s.log[i].1.verdict.proof;
    hide Inv, SignProof, Verifies, CorrectAuthority, ProofsSigned;
    IssuedProofVerifies(sha, w, Request(p.coordinates, p.attempt), p.status);
  }

  lemma RecordedIsSigned(sha: Hash, w: Authority, s: State, i: nat)
    requires Inv(s) && ProofsSigned(sha, w, s) && i < |s.log| && s.log[i].1.Answer? && s.log[i].1.verdict.Proved?
    ensures SignedBy(sha, w, s.log[i].1.verdict.proof)
  {
    hide SignedBy;
    assert LogOk(s);
    assert ReplyOk(s, s.log[i]);
    hide Inv;
  }
}
