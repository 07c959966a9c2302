/**
 The cleanup broker as a state machine. Every section the code runs under its mutex is one step. Every call it makes
 outside the mutex - OpenSession, BindRuntime, Revoke, Destroy on a handle, the signing and the checking of a proof -
 starts with one step and ends with another. Callers that find another at work wait on its done channel and look again.
 Runs are all interleavings of any number of callers.
 */
module CleanupBrokers {
  import opened Options
  import opened CleanupProofs

  type Thread = nat
  type HandleID = nat

  datatype Call = OpenCall(request: Request) | BindCall(id: string, expected: string) | RevokeCall(id: string)

  /** What a completed cleanup holds: a signed proof, a signing error, or the news that the broker went away meanwhile. */
  datatype Verdict = Pending | Proved(proof: Proof) | Denied | Abandoned

  /** What RevokeAttempt returns: the verdict, or that the attempt is unknown, the broker gone, the caller's context done. */
  datatype Reply = Answer(verdict: Verdict) | Unknown | Unavailable | Canceled

  /** Where a caller stands between two steps. */
  datatype Pc =
    | Looking(call: Call)
    | AwaitOpen(call: Call, id: string) | AwaitBind(call: Call, id: string) | AwaitRevoke(call: Call, id: string)
    | Opening(id: string) | Opened(id: string, handle: Option<HandleID>, ok: bool) | Aborting(h: HandleID) | AbortDying(h: HandleID)
    | Binding(id: string, h: HandleID) | Bound(id: string, ok: bool)
    | Revoking(id: string, h: HandleID) | Revoked(id: string, h: HandleID, ok: bool) | RevokeDying(id: string, h: HandleID, ok: bool)
    | Signing(id: string, revoked: bool) | Signed(id: string, revoked: bool, signed: Option<Proof>)
    | Verifying
    | Closing(reply: Option<(string, Reply)>)
    | DestroyWaiting | Draining(left: set<HandleID>) | DrainDying(left: set<HandleID>, h: HandleID)
    | AwaitDestroy

  /** `worker` and `revokeOk` only record what happened; no guard reads them. */
  datatype Attempt = Attempt(
    request: Request, openComplete: bool, openErr: bool, handle: Option<HandleID>,
    bindStarted: bool, bindComplete: bool, binding: string,
    revokeStarted: bool, revokeComplete: bool, verdict: Verdict,
    worker: Option<Thread>, revokeOk: bool)

  /** Who owns a handle. From `Dying` on its Destroy has been called; it is `Gone` when that has returned. */
  datatype Place = WithThread(thread: Thread) | InAttempt | InDrain | Dying(thread: Thread) | Gone

  /** The history of a handle: how often Revoke and Destroy were called on it, and what is running on it. */
  datatype Entry = Entry(attempt: string, place: Place, revokes: nat, revoking: bool, binding: bool, destroys: nat)

  /** `opens`, `verdicts` and `log` are history: OpenSession calls, results of cleanups, and replies of RevokeAttempt. */
  datatype State = State(
    attempts: map<string, Attempt>, threads: map<Thread, Pc>, ledger: map<HandleID, Entry>, nextHandle: nat,
    operations: nat, destroyed: bool, destroyer: Option<Thread>, drained: bool, destroyDone: bool,
    opens: map<string, nat>, verdicts: map<string, Verdict>, log: seq<(string, Reply)>)

  const Initial := State(map[], map[], map[], 0, 0, false, None, false, false, map[], map[], [])

  datatype Label =
    | Arrive(t: Thread, call: Call) | Look(t: Thread, capable: bool)
    | WakeDone(t: Thread) | WakeGone(t: Thread) | WakeCanceled(t: Thread)
    | OpenReturn(t: Thread, handed: bool, ok: bool) | OpenFinish(t: Thread) | AbortStart(t: Thread) | AbortEnd(t: Thread)
    | BindReturn(t: Thread, ok: bool) | BindFinish(t: Thread)
    | RevokeReturn(t: Thread, ok: bool) | RevokeKill(t: Thread) | RevokeKilled(t: Thread)
    | SignReturn(t: Thread, signed: Option<Proof>) | RevokeFinish(t: Thread)
    | VerifyStart(t: Thread) | VerifyReturn(t: Thread)
    | Done(t: Thread)
    | DestroyStart(t: Thread) | DestroyCollect(t: Thread) | DrainStart(t: Thread, h: HandleID) | DrainEnd(t: Thread)
    | DestroyFinish(t: Thread) | DestroyJoin(t: Thread) | DestroyLeave(t: Thread)

  // ---------------------------------------------------------------- guards

  /** The channel a waiting caller listens on is closed. */
  predicate ChannelClosed(s: State, pc: Pc) {
    match pc
    case AwaitOpen(_, id) => id in s.attempts && s.attempts[id].openComplete
    case AwaitBind(_, id) => id in s.attempts && s.attempts[id].bindComplete
    case AwaitRevoke(_, id) => id in s.attempts && s.attempts[id].revokeComplete
    case _ => false
  }

  predicate Awaits(pc: Pc) {
    pc.AwaitOpen? || pc.AwaitBind? || pc.AwaitRevoke?
  }

  function StatusOf(revoked: bool): CleanupStatus {
    if revoked then REVOKED else UNCERTAIN
  }

  /** A proof the authority may have signed for this cleanup. */
  predicate Certifies(p: Proof, r: Request, revoked: bool) {
    p.coordinates == r.coordinates && p.attempt == r.attempt && p.status == StatusOf(revoked)
  }

  predicate Enabled(s: State, l: Label) {
    match l
    // A caller goes by a name that no caller inside bears, nor the one that destroyed the broker.
    case Arrive(t, _) => t !in s.threads && s.destroyer != Some(t)
    case VerifyStart(t) => t !in s.threads && !s.destroyed
    case DestroyStart(t) => t !in s.threads && !s.destroyed
    case DestroyJoin(t) => t !in s.threads && s.destroyed && s.destroyer != Some(t)
    case _ => l.t in s.threads && Continues(s, l, s.threads[l.t])
  }

  predicate Continues(s: State, l: Label, pc: Pc) {
    match l
    case Look(_, _) => pc.Looking?
    case WakeDone(_) => ChannelClosed(s, pc)
    case WakeGone(_) => Awaits(pc) && s.destroyed
    case WakeCanceled(_) => Awaits(pc)
    case OpenReturn(_, _, _) => pc.Opening?
    case OpenFinish(_) => pc.Opened?
    case AbortStart(_) => pc.Aborting?
    case AbortEnd(_) => pc.AbortDying?
    case BindReturn(_, _) => pc.Binding?
    case BindFinish(_) => pc.Bound?
    case RevokeReturn(_, _) => pc.Revoking?
    case RevokeKill(_) => pc.Revoked?
    case RevokeKilled(_) => pc.RevokeDying?
    case SignReturn(_, signed) =>
      pc.Signing? && (signed.Some? ==> pc.id in s.attempts && Certifies(signed.value, s.attempts[pc.id].request, pc.revoked))
    case RevokeFinish(_) => pc.Signed?
    case VerifyReturn(_) => pc.Verifying?
    case Done(_) => pc.Closing?
    case DestroyCollect(_) => pc.DestroyWaiting? && s.operations == 0
    case DrainStart(_, h) => pc.Draining? && h in pc.left
    case DrainEnd(_) => pc.DrainDying?
    case DestroyFinish(_) => pc.Draining? && pc.left == {}
    case DestroyLeave(_) => pc.AwaitDestroy? && s.destroyDone
    case _ => false
  }

  // ---------------------------------------------------------------- effects

  predicate HoldsOperation(pc: Pc) {
    match pc
    case Looking(_) => false
    case AwaitOpen(_, _) => false
    case AwaitBind(_, _) => false
    case AwaitRevoke(_, _) => false
    case DestroyWaiting => false
    case Draining(_) => false
    case DrainDying(_, _) => false
    case AwaitDestroy => false
    case _ => true
  }

  /** Where a caller goes (None: it returns), what it does to an attempt and to a handle, and what it reports. */
  datatype Change = Change(
    t: Thread, pc: Option<Pc>, attempt: Option<(string, Attempt)>, entry: Option<(HandleID, Entry)>, reply: Option<(string, Reply)>)

  function Counted(threads: map<Thread, Pc>, t: Thread): bool {
    t in threads && HoldsOperation(threads[t])
  }

  function Placed(threads: map<Thread, Pc>, c: Change): map<Thread, Pc> {
    if c.pc.Some? then threads[c.t := c.pc.value] else threads - {c.t}
  }

  /** The WaitGroup counts the callers inside an operation. */
  function Recount(s: State, c: Change): nat {
    var now := c.pc.Some? && HoldsOperation(c.pc.value);
    if now == Counted(s.threads, c.t) then s.operations
    else if now then s.operations + 1
    else if s.operations > 0 then s.operations - 1 else 0
  }

  function Opens(s: State, id: string): nat {
    if id in s.opens then s.opens[id] else 0
  }

  function Apply(s: State, c: Change): State {
    s.(threads := Placed(s.threads, c),
       attempts := if c.attempt.Some? then s.attempts[c.attempt.value.0 := c.attempt.value.1] else s.attempts,
       ledger := if c.entry.Some? then s.ledger[c.entry.value.0 := c.entry.value.1] else s.ledger,
       nextHandle := if c.entry.Some? && c.entry.value.0 == s.nextHandle then s.nextHandle + 1 else s.nextHandle,
       operations := Recount(s, c),
       opens := if c.attempt.Some? && c.attempt.value.0 !in s.attempts
                then s.opens[c.attempt.value.0 := Opens(s, c.attempt.value.0) + 1] else s.opens,
       verdicts := if c.attempt.Some? && c.attempt.value.1.revokeComplete && !s.destroyed
                   then s.verdicts[c.attempt.value.0 := c.attempt.value.1.verdict] else s.verdicts,
       log := if c.reply.Some? then s.log + [c.reply.value] else s.log)
  }

  function Stay(t: Thread, pc: Pc): Change {
    Change(t, Some(pc), None, None, None)
  }

  /** The caller returns; only RevokeAttempt's replies are recorded. */
  function Leave(t: Thread, call: Call, reply: Reply): Change {
    Change(t, None, None, None, if call.RevokeCall? then Some((call.id, reply)) else None)
  }

  function Edit(s: State, h: HandleID, f: Entry -> Entry): Option<(HandleID, Entry)> {
    if h in s.ledger then Some((h, f(s.ledger[h]))) else None
  }

  function Fresh(r: Request, t: Thread): Attempt {
    Attempt(r, false, false, None, false, false, "", false, false, Pending, Some(t), false)
  }

  function LookOpen(s: State, t: Thread, r: Request): Change {
    var id := r.attempt.attemptID;
    if s.destroyed then Leave(t, OpenCall(r), Unavailable)
    else if id !in s.attempts then Change(t, Some(Opening(id)), Some((id, Fresh(r, t))), None, None)
    else if s.attempts[id].request == r && !s.attempts[id].openComplete then Stay(t, AwaitOpen(OpenCall(r), id))
    else Leave(t, OpenCall(r), Unavailable)
  }

  function LookBind(s: State, t: Thread, call: Call, capable: bool): Change
    requires call.BindCall?
  {
    if s.destroyed || call.id !in s.attempts then Leave(t, call, Unavailable)
    else
      var a := s.attempts[call.id];
      if a.revokeStarted || a.revokeComplete || !a.openComplete || a.openErr || a.handle.None? || a.bindComplete
         || (a.bindStarted && a.binding != call.expected) then Leave(t, call, Unavailable)
      else if a.bindStarted then Stay(t, AwaitBind(call, call.id))
      else if !capable then
        Change(t, None, Some((call.id, a.(bindStarted := true, bindComplete := true, binding := call.expected))), None, None)
      else
        Change(t, Some(Binding(call.id, a.handle.value)),
               Some((call.id, a.(bindStarted := true, binding := call.expected, worker := Some(t)))),
               Edit(s, a.handle.value, (e: Entry) => e.(binding := true)), None)
  }

  function LookRevoke(s: State, t: Thread, call: Call): Change
    requires call.RevokeCall?
  {
    if s.destroyed then Leave(t, call, Unavailable)
    else if call.id !in s.attempts then Leave(t, call, Unknown)
    else
      var a := s.attempts[call.id];
      if !a.openComplete then Stay(t, AwaitOpen(call, call.id))
      else if a.bindStarted && !a.bindComplete then Stay(t, AwaitBind(call, call.id))
      else if a.revokeComplete then Leave(t, call, Answer(a.verdict))
      else if a.revokeStarted then Stay(t, AwaitRevoke(call, call.id))
      else if a.handle.None? then
        Change(t, Some(Signing(call.id, false)), Some((call.id, a.(revokeStarted := true, worker := Some(t)))), None, None)
      else
        Change(t, Some(Revoking(call.id, a.handle.value)), Some((call.id, a.(revokeStarted := true, worker := Some(t)))),
               Edit(s, a.handle.value, (e: Entry) => e.(revokes := e.revokes + 1, revoking := true)), None)
  }

  function LookChange(s: State, t: Thread, call: Call, capable: bool): Change {
    match call
    case OpenCall(r) => LookOpen(s, t, r)
    case BindCall(_, _) => LookBind(s, t, call, capable)
    case RevokeCall(_) => LookRevoke(s, t, call)
  }

  const dying := (t: Thread) => (e: Entry) => e.(place := Dying(t), destroys := e.destroys + 1)
  const gone := (e: Entry) => e.(place := Gone)

  /** The move of a caller that works on attempt `a`. */
  function WorkChange(s: State, l: Label, pc: Pc, a: Attempt): Change {
    var t := l.t;
    if l.OpenReturn? && pc.Opening? then
      if l.handed
      then Change(t, Some(Opened(pc.id, Some(s.nextHandle), l.ok)), None, Some((s.nextHandle, Entry(pc.id, WithThread(t), 0, false, false, 0))), None)
      else Stay(t, Opened(pc.id, None, l.ok))
    else if l.OpenFinish? && pc.Opened? then
      // A broker destroyed meanwhile keeps nothing.
      if s.destroyed then
        Change(t, Some(if pc.handle.Some? then Aborting(pc.handle.value) else Closing(None)),
               Some((pc.id, a.(openErr := true, openComplete := true, worker := None))), None, None)
      else
        Change(t, Some(Closing(None)),
               Some((pc.id, a.(handle := pc.handle, openErr := !(pc.ok && pc.handle.Some?), openComplete := true, worker := None))),
               if pc.handle.Some? then Edit(s, pc.handle.value, (e: Entry) => e.(place := InAttempt)) else None, None)
    else if l.BindReturn? && pc.Binding? then
      Change(t, Some(Bound(pc.id, l.ok)), None, Edit(s, pc.h, (e: Entry) => e.(binding := false)), None)
    else if l.BindFinish? && pc.Bound? then
      Change(t, Some(Closing(None)), Some((pc.id, a.(bindComplete := true, worker := None))), None, None)
    else if l.RevokeReturn? && pc.Revoking? then
      Change(t, Some(Revoked(pc.id, pc.h, l.ok)), None, Edit(s, pc.h, (e: Entry) => e.(revoking := false)), None)
    else if l.RevokeKill? && pc.Revoked? then
      Change(t, Some(RevokeDying(pc.id, pc.h, pc.ok)), None, Edit(s, pc.h, dying(t)), None)
    else if l.RevokeKilled? && pc.RevokeDying? then
      Change(t, Some(Signing(pc.id, !a.openErr && pc.ok)), Some((pc.id, a.(revokeOk := pc.ok))), Edit(s, pc.h, gone), None)
    else if l.SignReturn? && pc.Signing? then Stay(t, Signed(pc.id, pc.revoked, l.signed))
    else if l.RevokeFinish? && pc.Signed? then
      var verdict := if s.destroyed then Abandoned else if pc.signed.Some? then Proved(pc.signed.value) else Denied;
      Change(t, Some(Closing(Some((pc.id, if s.destroyed then Unavailable else Answer(verdict))))),
             Some((pc.id, a.(handle := None, revokeComplete := true, worker := None, verdict := verdict))), None, None)
    else Stay(t, pc)
  }

  /** The move of a caller that works on no attempt. */
  function PlainChange(s: State, l: Label, pc: Pc): Change {
    match l
    case WakeDone(t) => if Awaits(pc) then Stay(t, Looking(pc.call)) else Stay(t, pc)
    case WakeGone(t) => if Awaits(pc) then Leave(t, pc.call, Unavailable) else Stay(t, pc)
    case WakeCanceled(t) => if Awaits(pc) then Leave(t, pc.call, Canceled) else Stay(t, pc)
    case AbortStart(t) => if pc.Aborting? then Change(t, Some(AbortDying(pc.h)), None, Edit(s, pc.h, dying(t)), None) else Stay(t, pc)
    case AbortEnd(t) => if pc.AbortDying? then Change(t, Some(Closing(None)), None, Edit(s, pc.h, gone), None) else Stay(t, pc)
    case VerifyReturn(t) => Stay(t, Closing(None))
    case Done(t) => Change(t, None, None, None, if pc.Closing? then pc.reply else None)
    case DestroyLeave(t) => Change(t, None, None, None, None)
    case _ => Stay(l.t, pc)
  }

  function Handles(attempts: map<string, Attempt>): set<HandleID> {
    set id | id in attempts && attempts[id].handle.Some? :: attempts[id].handle.value
  }

  function Collected(ledger: map<HandleID, Entry>, handles: set<HandleID>): map<HandleID, Entry> {
    map h | h in ledger :: if h in handles then ledger[h].(place := InDrain) else ledger[h]
  }

  predicate Works(l: Label) {
    || l.OpenReturn? || l.OpenFinish? || l.BindReturn? || l.BindFinish? || l.RevokeReturn? || l.RevokeKill? || l.RevokeKilled?
    || l.SignReturn? || l.RevokeFinish?
  }

  predicate Plain(l: Label) {
    || l.WakeDone? || l.WakeGone? || l.WakeCanceled? || l.AbortStart? || l.AbortEnd? || l.VerifyReturn? || l.Done? || l.DestroyLeave?
  }

  function Next(s: State, l: Label): State
    requires Enabled(s, l)
  {
    match l
    case Arrive(t, call) => Apply(s, Stay(t, Looking(call)))
    case VerifyStart(t) => Apply(s, Stay(t, Verifying))
    case DestroyJoin(t) => Apply(s, Stay(t, AwaitDestroy))
    case Look(t, capable) => Apply(s, LookChange(s, t, s.threads[t].call, capable))
    case DestroyStart(t) => s.(destroyed := true, destroyer := Some(t), threads := s.threads[t := DestroyWaiting])
    case DestroyCollect(t) =>
      var handles := Handles(s.attempts);
      s.(ledger := Collected(s.ledger, handles), attempts := map[], drained := true, threads := s.threads[t := Draining(handles)])
    case DrainStart(t, h) => Apply(s, Change(t, Some(DrainDying(s.threads[t].left - {h}, h)), None, Edit(s, h, dying(t)), None))
    case DrainEnd(t) => Apply(s, Change(t, Some(Draining(s.threads[t].left)), None, Edit(s, s.threads[t].h, gone), None))
    case DestroyFinish(t) => s.(threads := s.threads - {t}, destroyDone := true)
    case _ =>
      var pc := s.threads[l.t];
      if Plain(l) then Apply(s, PlainChange(s, l, pc))
      else if WorksOn(pc).Some? && WorksOn(pc).value in s.attempts then Apply(s, WorkChange(s, l, pc, s.attempts[WorksOn(pc).value]))
      else s
  }

  /** The attempt a caller is working on outside the lock. */
  function WorksOn(pc: Pc): Option<string> {
    match pc
    case Opening(id) => Some(id)
    case Opened(id, _, _) => Some(id)
    case Binding(id, _) => Some(id)
    case Bound(id, _) => Some(id)
    case Revoking(id, _) => Some(id)
    case Revoked(id, _, _) => Some(id)
    case RevokeDying(id, _, _) => Some(id)
    case Signing(id, _) => Some(id)
    case Signed(id, _, _) => Some(id)
    case _ => None
  }

  // ---------------------------------------------------------------- the invariant

  /** The callers the WaitGroup is counting. */
  function Busy(threads: map<Thread, Pc>): set<Thread> {
    set t | t in threads && HoldsOperation(threads[t])
  }

  /** The handle a caller alone owns. */
  function Carries(pc: Pc): Option<HandleID> {
    match pc
    case Opened(_, h, _) => h
    case Aborting(h) => Some(h)
    case _ => None
  }

  /** The handle whose Destroy a caller is running. */
  function Kills(pc: Pc): Option<HandleID> {
    match pc
    case AbortDying(h) => Some(h)
    case RevokeDying(_, h, _) => Some(h)
    case DrainDying(_, h) => Some(h)
    case _ => None
  }

  predicate At(s: State, h: HandleID, place: Place) {
    h in s.ledger && s.ledger[h].place == place
  }

  predicate WorkFits(s: State, t: Thread, a: Attempt, pc: Pc) {
    match pc
    case Opening(_) => !a.openComplete
    case Opened(_, _, _) => !a.openComplete
    case Binding(_, h) => a.bindStarted && !a.bindComplete && a.handle == Some(h) && At(s, h, InAttempt) && s.ledger[h].binding
    case Bound(_, _) => a.bindStarted && !a.bindComplete && a.handle.Some? && At(s, a.handle.value, InAttempt) && !s.ledger[a.handle.value].binding
    case Revoking(_, h) => a.revokeStarted && !a.revokeComplete && a.handle == Some(h) && At(s, h, InAttempt) && s.ledger[h].revoking
    case Revoked(_, h, _) => a.revokeStarted && !a.revokeComplete && a.handle == Some(h) && At(s, h, InAttempt) && !s.ledger[h].revoking
    case RevokeDying(_, h, _) => a.revokeStarted && !a.revokeComplete && a.handle == Some(h) && At(s, h, Dying(t))
    case Signing(_, revoked) =>
      && a.revokeStarted && !a.revokeComplete && (a.handle.Some? ==> At(s, a.handle.value, Gone))
      && (revoked ==> a.revokeOk && !a.openErr)
    case Signed(_, revoked, signed) =>
      && a.revokeStarted && !a.revokeComplete && (a.handle.Some? ==> At(s, a.handle.value, Gone))
      && (revoked ==> a.revokeOk && !a.openErr) && (signed.Some? ==> Certifies(signed.value, a.request, revoked))
    case _ => true
  }

  /** Whoever waits has somebody to wait for, unless the broker is going away. */
  predicate WaiterOk(s: State, pc: Pc) {
    match pc
    case AwaitOpen(_, id) => s.destroyed || id in s.attempts
    case AwaitBind(_, id) => s.destroyed || (id in s.attempts && s.attempts[id].bindStarted)
    case AwaitRevoke(_, id) => s.destroyed || (id in s.attempts && s.attempts[id].revokeStarted)
    case AwaitDestroy => s.destroyed
    case _ => true
  }

  predicate DestroyerOk(s: State, t: Thread, pc: Pc) {
    && (s.destroyer == Some(t) ==> pc.DestroyWaiting? || pc.Draining? || pc.DrainDying?)
    && (pc.DestroyWaiting? ==> s.destroyer == Some(t) && !s.drained)
    && (pc.Draining? || pc.DrainDying? ==>
          && s.destroyer == Some(t) && s.drained && !s.destroyDone
          && forall h | h in pc.left :: At(s, h, InDrain))
  }

  /** A reply that shows a verdict shows the one on record. */
  predicate ReplyOk(s: State, r: (string, Reply)) {
    && (r.1.Answer? ==> r.0 in s.verdicts && s.verdicts[r.0] == r.1.verdict)
    && (r.1.Unavailable? ==> s.destroyed)
  }

  predicate ThreadOk(s: State, t: Thread)
    requires t in s.threads
  {
    var pc := s.threads[t];
    && (WorksOn(pc).Some? ==>
          && WorksOn(pc).value in s.attempts && s.attempts[WorksOn(pc).value].worker == Some(t)
          && WorkFits(s, t, s.attempts[WorksOn(pc).value], pc))
    && (Carries(pc).Some? ==>
          && At(s, Carries(pc).value, WithThread(t))
          && (pc.Opened? ==> s.ledger[Carries(pc).value].attempt == pc.id))
    && (Kills(pc).Some? ==> At(s, Kills(pc).value, Dying(t)))
    && WaiterOk(s, pc) && DestroyerOk(s, t, pc)
    && (pc.Closing? && pc.reply.Some? ==> ReplyOk(s, pc.reply.value) && (pc.reply.value.1.Answer? || pc.reply.value.1.Unavailable?))
  }

  predicate AttemptShape(a: Attempt) {
    && (!a.openComplete ==> a.handle.None? && !a.bindStarted && !a.revokeStarted)
    && (a.bindComplete ==> a.bindStarted)
    && (a.revokeStarted ==> a.bindStarted ==> a.bindComplete)
    && (a.revokeComplete ==> a.revokeStarted && a.handle.None? && a.verdict != Pending)
    && (!a.revokeComplete ==> a.verdict == Pending)
    && (a.verdict.Proved? ==>
          Certifies(a.verdict.proof, a.request, a.verdict.proof.status == REVOKED)
          && (a.verdict.proof.status == REVOKED ==> a.revokeOk && !a.openErr))
    && (a.worker.None? ==> a.openComplete && (a.bindStarted ==> a.bindComplete) && (a.revokeStarted ==> a.revokeComplete))
  }

  predicate AttemptOk(s: State, id: string)
    requires id in s.attempts
  {
    var a := s.attempts[id];
    && AttemptShape(a) && a.request.attempt.attemptID == id
    && (a.worker.Some? ==> a.worker.value in s.threads && WorksOn(s.threads[a.worker.value]) == Some(id))
    && (a.handle.Some? ==>
          && a.handle.value in s.ledger && s.ledger[a.handle.value].attempt == id
          && (var place := s.ledger[a.handle.value].place;
              place == InAttempt || (a.revokeStarted && a.worker.Some? && (place == Gone || place == Dying(a.worker.value)))))
    && (!s.destroyed ==> (a.revokeComplete <==> id in s.verdicts) && (a.revokeComplete ==> s.verdicts[id] == a.verdict))
  }

  predicate HandleOk(s: State, h: HandleID)
    requires h in s.ledger
  {
    var e := s.ledger[h];
    && h < s.nextHandle && e.revokes <= 1 && e.destroys == (if e.place == Gone || e.place.Dying? then 1 else 0)
    && !(e.revoking && e.binding) && (e.place != InAttempt ==> !e.revoking && !e.binding)
    && match e.place
       case WithThread(t) => t in s.threads && Carries(s.threads[t]) == Some(h) && e.revokes == 0
       case InAttempt =>
         && e.attempt in s.attempts && s.attempts[e.attempt].handle == Some(h)
         && e.revokes == (if s.attempts[e.attempt].revokeStarted then 1 else 0)
         && (e.binding ==> !s.attempts[e.attempt].revokeStarted) && (e.revoking ==> s.attempts[e.attempt].revokeStarted)
         && (e.revoking || e.binding ==> s.attempts[e.attempt].worker.Some?)
       case InDrain =>
         && s.destroyer.Some? && s.destroyer.value in s.threads
         && (s.threads[s.destroyer.value].Draining? || s.threads[s.destroyer.value].DrainDying?) && h in s.threads[s.destroyer.value].left
       case Dying(t) => t in s.threads && Kills(s.threads[t]) == Some(h)
       case Gone => true
  }

  predicate GlobalOk(s: State) {
    && s.operations == |Busy(s.threads)|
    && (s.destroyed <==> s.destroyer.Some?)
    && (s.destroyed && !s.destroyDone ==>
          && s.destroyer.value in s.threads
          && (if s.drained then s.threads[s.destroyer.value].Draining? || s.threads[s.destroyer.value].DrainDying?
              else s.threads[s.destroyer.value].DestroyWaiting?))
    && (s.drained ==> s.destroyed && s.attempts == map[] && Busy(s.threads) == {})
    && (s.destroyDone ==> s.drained)
    && (forall id | id in s.opens :: s.opens[id] == 1)
    && (!s.drained ==> s.opens.Keys == s.attempts.Keys)
    && s.verdicts.Keys <= s.opens.Keys
  }

  predicate LogOk(s: State) {
    forall i | 0 <= i < |s.log| :: ReplyOk(s, s.log[i])
  }

  predicate Inv(s: State) {
    && (forall t | t in s.threads :: ThreadOk(s, t))
    && (forall id | id in s.attempts :: AttemptOk(s, id))
    && (forall h | h in s.ledger :: HandleOk(s, h))
    && GlobalOk(s) && LogOk(s)
  }
}
