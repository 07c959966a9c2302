/**
 Concurrent RequestRevocation calls on the copies of one credential. One caller at a time is in flight: it has set the
 flight channel under the lock and calls the repository outside it. The others wait for the channel they found and look
 again, perhaps while a newer flight is under way. A call of the repository is a step that starts it and a step that ends
 it; runs are all interleavings.
 */
module RevocationFlights {
  import opened Options
  import opened Revocations

  type Thread = nat

  /** `answer` is the repository's reply if the broker accepted it. */
  datatype Pc = Looking | Waiting(flight: nat) | Calling | Called(answer: Option<Revocation>)

  datatype Reply = Accepted(revocation: Revocation) | Refused | Canceled

  /**
   `flight` is the caller in flight, `flights` the number of flights begun, so the channel in use is the last one. `calls`
   counts the repository calls that are running; `log` holds what callers were returned.
   */
  datatype State = State(
    threads: map<Thread, Pc>, flight: Option<Thread>, flights: nat, result: Option<Revocation>, secretHeld: bool, calls: nat, log: seq<Reply>)

  const Initial := State(map[], None, 0, None, true, 0, [])

  datatype Label =
    | Arrive(t: Thread) | Look(t: Thread, canceled: bool) | Wake(t: Thread) | WakeCanceled(t: Thread)
    | CallReturn(t: Thread, answer: Option<Revocation>) | Land(t: Thread)

  /** The channel of a flight is closed as it lands. */
  predicate Closed(s: State, flight: nat) {
    s.flight.None? || flight != s.flights
  }

  predicate Enabled(s: State, l: Label) {
    match l
    case Arrive(t) => t !in s.threads
    case Look(t, _) => t in s.threads && s.threads[t] == Looking
    case Wake(t) => t in s.threads && s.threads[t].Waiting? && Closed(s, s.threads[t].flight)
    case WakeCanceled(t) => t in s.threads && s.threads[t].Waiting?
    case CallReturn(t, _) => t in s.threads && s.threads[t] == Calling
    case Land(t) => t in s.threads && s.threads[t].Called?
  }

  function Leave(s: State, t: Thread, reply: Reply): State {
    s.(threads := s.threads - {t}, log := s.log + [reply])
  }

  function Next(s: State, l: Label): State
    requires Enabled(s, l)
  {
    match l
    // The local secret is destroyed before anything else.
    case Arrive(t) => s.(threads := s.threads[t := Looking], secretHeld := false)
    case Look(t, canceled) =>
      if s.result.Some? then Leave(s, t, Accepted(s.result.value))
      else if s.flight.Some? then s.(threads := s.threads[t := Waiting(s.flights)])
      else if canceled then Leave(s, t, Canceled)
      else s.(threads := s.threads[t := Calling], flight := Some(t), flights := s.flights + 1, calls := s.calls + 1)
    case Wake(t) => s.(threads := s.threads[t := Looking])
    case WakeCanceled(t) => Leave(s, t, Canceled)
    case CallReturn(t, answer) => s.(threads := s.threads[t := Called(answer)], calls := if s.calls > 0 then s.calls - 1 else 0)
    case Land(t) =>
      var answer := s.threads[t].answer;
      Leave(s.(flight := None, result := if answer.Some? then answer else s.result), t,
            if answer.Some? then Accepted(answer.value) else Refused)
  }

  predicate InFlight(pc: Pc) {
    pc == Calling || pc.Called?
  }

  predicate Inv(s: State) {
    && (forall t | t in s.threads :: InFlight(s.threads[t]) <==> s.flight == Some(t))
    && (s.flight.Some? ==> s.flight.value in s.threads && s.result.None?)
    && s.calls == (if s.flight.Some? && s.threads[s.flight.value] == Calling then 1 else 0)
    && (forall i | 0 <= i < |s.log| :: s.log[i].Accepted? ==> s.result == Some(s.log[i].revocation))
    && (forall t | t in s.threads && s.threads[t].Waiting? :: s.threads[t].flight <= s.flights)
    && (s.threads != map[] || s.log != [] ==> !s.secretHeld)
  }

  lemma StepKeeps(s: State, l: Label)
    requires Inv(s) && Enabled(s, l)
    ensures Inv(Next(s, l))
  {
    assert l.t in Next(s, l).threads ==> Next(s, l).threads != map[];
  }

  predicate Legal(s: State, ls: seq<Label>)
    decreases |ls|
  {
    |ls| > 0 ==> Enabled(s, ls[0]) && Legal(Next(s, ls[0]), ls[1..])
  }

  function Run(s: State, ls: seq<Label>): State
    requires Legal(s, ls)
    decreases |ls|
  {
    if |ls| == 0 then s else Run(Next(s, ls[0]), ls[1..])
  }

  lemma {:induction false} RunKeeps(s: State, ls: seq<Label>)
    requires Inv(s) && Legal(s, ls)
    ensures Inv(Run(s, ls))
    decreases |ls|
  {
    hide Inv, Enabled, Next;
    if |ls| > 0 {
      StepKeeps(s, ls[0]);
      RunKeeps(Next(s, ls[0]), ls[1..]);
    }
  }

  /**
   Over every interleaving at most one repository call runs at a time and none once a result is cached, every caller that
   succeeds is returned the one cached result, and the secret is gone as soon as anybody has called.
   */
  lemma OneResult(ls: seq<Label>, i: nat, j: nat)
    requires Legal(Initial, ls)
    requires var log := Run(Initial, ls).log; i < |log| && j < |log| && log[i].Accepted? && log[j].Accepted?
    ensures var s := Run(Initial, ls);
            s.calls == 0 && s.log[i] == s.log[j] && s.result == Some(s.log[i].revocation) && !s.secretHeld
  {
    RunKeeps(Initial, ls);
    hide Run;
  }

  lemma OneCallAtATime(ls: seq<Label>)
    requires Legal(Initial, ls)
    ensures var s := Run(Initial, ls); s.calls <= 1 && (s.result.Some? ==> s.calls == 0 && s.flight.None?)
  {
    RunKeeps(Initial, ls);
    hide Run;
  }

  /** A caller that waits and cannot go on waits for one that can: the one in flight. */
  lemma WaiterHasFlight(s: State, t: Thread)
    requires Inv(s) && t in s.threads && s.threads[t].Waiting? && !Enabled(s, Wake(t))
    ensures s.flight.Some? && s.threads[t].flight == s.flights && s.flight.value != t && s.flight.value in s.threads
    ensures Enabled(s, CallReturn(s.flight.value, None)) || Enabled(s, Land(s.flight.value))
  {
  }
}
