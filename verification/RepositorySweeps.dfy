/**
 The batches: updating the chosen records one after the other leaves the store that `After` predicts,
 because the batch names each record once.
 */
module RepositorySweeps {
  import opened Text
  import opened Revocations
  import opened Lifecycle
  import opened LifecycleTraces
  import opened Ordering
  import opened RepositoryModel
  import opened RepositoryRuns
  import opened RepositoryDecisions

  predicate Supplied(c: Call, n: nat) {
    c.ClaimRevocations? ==> forall i | 0 <= i < n :: c.tokens(i).Some?
  }

  predicate DistinctIDs(chosen: seq<SortKey>) {
    forall i, j | 0 <= i < j < |chosen| :: chosen[i].id != chosen[j].id
  }

  lemma ChosenIsDistinct(s: Store, c: Call)
    requires Sweep(c)
    ensures DistinctIDs(Chosen(s, c)) && Named(s, Chosen(s, c))
  {
    hide Eligible, OrderOf, ValidSweep;
    var chosen := Chosen(s, c);
    if ValidSweep(c) {
      BatchIsPrefix(EligibleKeys(s, c), c.limit);
      AscendingDistinct(chosen);
    }
    forall i, j | 0 <= i < j < |chosen| ensures chosen[i].id != chosen[j].id {
      assert chosen[i] in chosen && chosen[j] in chosen;
    }
  }

  /** What the candidate at position i becomes. */
  ghost function SweptRecord(sha: Hash, s: Store, c: Call, chosen: seq<SortKey>, i: nat): Record
    requires Sweep(c) && i < |chosen| && Named(s, chosen) && Supplied(c, i + 1)
  {
    var id := chosen[i].id;
    Play(s.records[id], SweepSteps(sha, s.records[id], id, c, i))
  }

  /** The records after the first n candidates. */
  ghost function Swept(sha: Hash, s: Store, c: Call, chosen: seq<SortKey>, n: nat): (after: map<string, Record>)
    requires Sweep(c) && n <= |chosen| && Named(s, chosen) && Supplied(c, n)
    ensures after.Keys == s.records.Keys
  {
    if n == 0 then s.records
    else Swept(sha, s, c, chosen, n - 1)[chosen[n - 1].id := SweptRecord(sha, s, c, chosen, n - 1)]
  }

  lemma SweptLast(sha: Hash, s: Store, c: Call, chosen: seq<SortKey>, m: nat, n: nat)
    requires Sweep(c) && m < n == m + 1 <= |chosen| && Named(s, chosen) && Supplied(c, n)
    ensures chosen[m].id in s.records
    ensures Swept(sha, s, c, chosen, n)[chosen[m].id] == SweptRecord(sha, s, c, chosen, m)
  {
    hide SweptRecord, Sweep, Supplied, Named;
    NamedAt(s, chosen, m);
  }

  lemma SweptOther(sha: Hash, s: Store, c: Call, chosen: seq<SortKey>, m: nat, n: nat, id: string)
    requires Sweep(c) && m < n == m + 1 <= |chosen| && Named(s, chosen) && Supplied(c, m) && Supplied(c, n)
    requires id in s.records && id != chosen[m].id
    ensures Swept(sha, s, c, chosen, n)[id] == Swept(sha, s, c, chosen, m)[id]
  {
    hide SweptRecord, Sweep, Supplied, Named;
  }

  lemma SuppliedLess(c: Call, n: nat)
    requires 0 < n && Supplied(c, n)
    ensures Supplied(c, n - 1)
  {
  }

  lemma SweptStart(sha: Hash, s: Store, c: Call, chosen: seq<SortKey>)
    requires Sweep(c) && Named(s, chosen)
    ensures Supplied(c, 0) && Swept(sha, s, c, chosen, 0) == s.records
  {
  }

  lemma {:induction false} SweptUntouched(sha: Hash, s: Store, c: Call, chosen: seq<SortKey>, n: nat, id: string)
    requires Sweep(c) && n <= |chosen| && Named(s, chosen) && Supplied(c, n) && id in s.records
    requires forall i | 0 <= i < n :: chosen[i].id != id
    ensures Swept(sha, s, c, chosen, n)[id] == s.records[id]
    decreases n
  {
    hide *;
    if n == 0 {
      SweptStart(sha, s, c, chosen);
    } else {
      SuppliedLess(c, n);
      SweptOther(sha, s, c, chosen, n - 1, n, id);
      SweptUntouched(sha, s, c, chosen, n - 1, id);
    }
  }

  lemma {:induction false} SweptAt(sha: Hash, s: Store, c: Call, chosen: seq<SortKey>, n: nat, i: nat)
    requires Sweep(c) && i < n <= |chosen| && Named(s, chosen) && Supplied(c, n) && DistinctIDs(chosen)
    ensures Supplied(c, i + 1) && chosen[i].id in s.records
    ensures Swept(sha, s, c, chosen, n)[chosen[i].id] == SweptRecord(sha, s, c, chosen, i)
    decreases n, 0
  {
    hide *;
    if n == i + 1 {
      SweptLast(sha, s, c, chosen, i, n);
    } else {
      SweptFurther(sha, s, c, chosen, n - 1, n, i);
    }
  }

  lemma {:induction false} SweptFurther(sha: Hash, s: Store, c: Call, chosen: seq<SortKey>, m: nat, n: nat, i: nat)
    requires Sweep(c) && i < m < n == m + 1 <= |chosen| && Named(s, chosen) && Supplied(c, n) && DistinctIDs(chosen)
    ensures Supplied(c, i + 1) && chosen[i].id in s.records
    ensures Swept(sha, s, c, chosen, n)[chosen[i].id] == SweptRecord(sha, s, c, chosen, i)
    decreases m, 1
  {
    hide *;
    SuppliedLess(c, n);
    SweptAt(sha, s, c, chosen, m, i);
    SweptEarlier(sha, s, c, chosen, m, n, i);
  }

  lemma SweptEarlier(sha: Hash, s: Store, c: Call, chosen: seq<SortKey>, m: nat, n: nat, i: nat)
    requires Sweep(c) && i < m < n == m + 1 <= |chosen| && Named(s, chosen) && Supplied(c, m) && Supplied(c, n) && DistinctIDs(chosen)
    ensures chosen[i].id in s.records
    ensures Swept(sha, s, c, chosen, n)[chosen[i].id] == Swept(sha, s, c, chosen, m)[chosen[i].id]
  {
    hide *;
    Distinct(chosen, i, m);
    NamedAt(s, chosen, i);
    SweptOther(sha, s, c, chosen, m, n, chosen[i].id);
  }

  lemma NamedAt(s: Store, chosen: seq<SortKey>, i: nat)
    requires Named(s, chosen) && i < |chosen|
    ensures chosen[i].id in s.records
  {
  }

  lemma Distinct(chosen: seq<SortKey>, i: nat, j: nat)
    requires DistinctIDs(chosen) && i < j < |chosen|
    ensures chosen[i].id != chosen[j].id
  {
  }

  lemma SweepMovesRecord(sha: Hash, s: Store, c: Call, id: string)
    requires Sweep(c) && SweepCommits(s, c) && id in s.records
    requires Named(s, Chosen(s, c)) && Supplied(c, |Chosen(s, c)|)
    ensures var p := Position(Chosen(s, c), id);
            Play(s.records[id], SweepMoves(sha, s, c, id)) ==
              if p.Some? then SweptRecord(sha, s, c, Chosen(s, c), p.value) else s.records[id]
  {
    hide Chosen, SweepSteps, SweepCommits, Position;
    NothingHappens(s.records[id]);
    hide Play;
  }

  lemma SweptIsAfter(sha: Hash, s: Store, c: Call)
    requires Sweep(c) && SweepCommits(s, c)
    requires Named(s, Chosen(s, c)) && Supplied(c, |Chosen(s, c)|)
    ensures After(sha, s, c) == Store(Swept(sha, s, c, Chosen(s, c), |Chosen(s, c)|), s.epochs)
  {
    hide *;
    var chosen := Chosen(s, c);
    var records := Swept(sha, s, c, chosen, |chosen|);
    ChosenIsDistinct(s, c);
    forall id | id in s.records ensures records[id] == Play(s.records[id], Moves(sha, s, c, id)) {
      SweepHasMoves(sha, s, c, id);
      SweepMovesRecord(sha, s, c, id);
      var p := Position(chosen, id);
      if p.Some? {
        SweptAt(sha, s, c, chosen, |chosen|, p.value);
      } else {
        NoPosition(chosen, id);
        SweptUntouched(sha, s, c, chosen, |chosen|, id);
      }
    }
    SweepIsNotPrepare(c);
    AfterPointwise(sha, s, c, records);
  }

  lemma NoPosition(chosen: seq<SortKey>, id: string)
    requires Position(chosen, id).None?
    ensures forall i | 0 <= i < |chosen| :: chosen[i].id != id
  {
    hide Position;
  }

  lemma SweepIsNotPrepare(c: Call)
    requires Sweep(c)
    ensures !c.Prepare?
  {
  }

  lemma RefusedSweepIsStill(sha: Hash, s: Store, c: Call)
    requires Sweep(c) && (!ValidSweep(c) || !SweepCommits(s, c))
    ensures After(sha, s, c) == s
  {
    hide *;
    forall id | id in s.records ensures s.records[id] == Play(s.records[id], Moves(sha, s, c, id)) {
      SweepHasMoves(sha, s, c, id);
      RefusedSweepMoves(sha, s, c, id);
      NothingHappens(s.records[id]);
    }
    SweepIsNotPrepare(c);
    AfterPointwise(sha, s, c, s.records);
  }

  lemma RefusedSweepMoves(sha: Hash, s: Store, c: Call, id: string)
    requires Sweep(c) && id in s.records && (!ValidSweep(c) || !SweepCommits(s, c))
    ensures SweepMoves(sha, s, c, id) == []
  {
    hide SweepSteps, EligibleKeys, ValidSweep, ClaimRefusal;
  }

  lemma SweptNext(sha: Hash, s: Store, c: Call, chosen: seq<SortKey>, i: nat, r: Record)
    requires Sweep(c) && i < |chosen| && Named(s, chosen) && Supplied(c, i) && Supplied(c, i + 1)
    requires r == SweptRecord(sha, s, c, chosen, i)
    ensures Swept(sha, s, c, chosen, i + 1) == Swept(sha, s, c, chosen, i)[chosen[i].id := r]
  {
    hide SweptRecord, Sweep, Named, Supplied;
  }

  /** When its turn comes, a candidate is still as the sweep found it. */
  lemma SweptStill(sha: Hash, s: Store, c: Call, chosen: seq<SortKey>, i: nat)
    requires Sweep(c) && i < |chosen| && Named(s, chosen) && Supplied(c, i) && DistinctIDs(chosen)
    ensures chosen[i].id in s.records
    ensures Swept(sha, s, c, chosen, i)[chosen[i].id] == s.records[chosen[i].id]
  {
    hide *;
    NamedAt(s, chosen, i);
    forall j | 0 <= j < i ensures chosen[j].id != chosen[i].id {
      Distinct(chosen, j, i);
    }
    SweptUntouched(sha, s, c, chosen, i, chosen[i].id);
  }

  lemma SuppliedAlways(c: Call, n: nat)
    requires Sweep(c) && !c.ClaimRevocations?
    ensures Supplied(c, n) && forall s: Store :: SweepCommits(s, c)
  {
  }

  lemma SweptByRecovery(sha: Hash, s: Store, c: Call, chosen: seq<SortKey>, i: nat)
    requires c.RecoverPrepared? || c.RecoverExhausted?
    requires Sweep(c) && i < |chosen| && Named(s, chosen) && Supplied(c, i + 1) && chosen[i].id in s.records
    ensures SweptRecord(sha, s, c, chosen, i) ==
              Next(s.records[chosen[i].id],
                   if c.RecoverPrepared? then MarkNoCredential(c.now) else Exhaust(c.now, sha(FailureDetailExhaustedWithoutAck)))
  {
    hide Play, Next;
    var l := if c.RecoverPrepared? then MarkNoCredential(c.now) else Exhaust(c.now, sha(FailureDetailExhaustedWithoutAck));
    PlaySteps(s.records[chosen[i].id], l, l);
  }

  lemma RecoveredNext(sha: Hash, s: Store, c: Call, chosen: seq<SortKey>, i: nat)
    requires Sweep(c) && !c.ClaimRevocations? && i < |chosen| && Named(s, chosen) && Supplied(c, i + 1)
    ensures RecoveredFrom(sha, s, c, chosen, 0) == []
    ensures RecoveredFrom(sha, s, c, chosen, i + 1) == RecoveredFrom(sha, s, c, chosen, i) + [SweptRecord(sha, s, c, chosen, i).rev]
  {
    hide Play, SweepSteps, Sweep;
  }

  lemma RecoveredAll(sha: Hash, s: Store, c: Call, chosen: seq<SortKey>)
    requires Sweep(c) && !c.ClaimRevocations? && ValidSweep(c) && chosen == Chosen(s, c) && Named(s, chosen)
    ensures SweepReply(sha, s, c) == Ok(RecoveredFrom(sha, s, c, chosen, |chosen|))
  {
    hide RecoveredFrom, Chosen, ValidSweep;
  }

  function RecoveryLabel(sha: Hash, c: Call): Label {
    if c.RecoverPrepared? then MarkNoCredential(c.now) else Exhaust(c.now, sha(FailureDetailExhaustedWithoutAck))
  }

  predicate Recovery(c: Call) {
    c.RecoverPrepared? || c.RecoverExhausted?
  }

  lemma RecoveryTraits(c: Call, i: nat)
    requires Recovery(c)
    ensures Sweep(c) && !c.ClaimRevocations? && Supplied(c, i)
  {
  }

  /** One turn of a recovery loop. */
  lemma RecoveryTurn(sha: Hash, s: Store, c: Call, chosen: seq<SortKey>, i: nat)
    requires Recovery(c) && Sweep(c) && Named(s, chosen) && DistinctIDs(chosen) && i < |chosen|
    ensures Supplied(c, i) && Supplied(c, i + 1) && chosen[i].id in s.records
    ensures Swept(sha, s, c, chosen, i)[chosen[i].id] == s.records[chosen[i].id]
    ensures var r := Next(s.records[chosen[i].id], RecoveryLabel(sha, c));
            && Swept(sha, s, c, chosen, i + 1) == Swept(sha, s, c, chosen, i)[chosen[i].id := r]
            && RecoveredFrom(sha, s, c, chosen, i + 1) == RecoveredFrom(sha, s, c, chosen, i) + [r.rev]
  {
    hide Swept, SweptRecord, Next, DistinctIDs, RecoveredFrom, Supplied, Sweep, Named;
    RecoveryTraits(c, i);
    RecoveryTraits(c, i + 1);
    SweptStill(sha, s, c, chosen, i);
    SweptByRecovery(sha, s, c, chosen, i);
    SweptNext(sha, s, c, chosen, i, SweptRecord(sha, s, c, chosen, i));
    RecoveredNext(sha, s, c, chosen, i);
  }

  // ---------------------------------------------------------------- claims

  function ClaimLabel(sha: Hash, c: Call, token: string): Label
    requires c.ClaimRevocations?
  {
    Claim(c.now, c.workerID, c.lease, sha(token))
  }

  function PoisonLabel(sha: Hash, c: Call, token: string, epoch: int): Label
    requires c.ClaimRevocations?
  {
    GiveUp(c.now, ClaimKey(c.workerID, sha(token), epoch), InvalidReference, sha(FailureDetailProtectedRefInvalid))
  }

  /** The record a candidate becomes: claimed, or claimed and handed to a human if its reference does not open. */
  function ClaimedRecord(sha: Hash, r: Record, c: Call, token: string, poison: bool): Record
    requires c.ClaimRevocations?
  {
    var claimed := Next(r, ClaimLabel(sha, c, token));
    if poison then Next(claimed, PoisonLabel(sha, c, token, r.rev.claimEpoch + 1)) else claimed
  }

  lemma ClaimStepsPlayed(sha: Hash, r: Record, id: string, c: Call, token: string)
    requires c.ClaimRevocations?
    ensures Play(r, ClaimSteps(sha, r, id, c, token)) == ClaimedRecord(sha, r, c, token, c.poison(id))
    ensures IssuedClaim(sha, r, id, c, token) ==
              if c.poison(id) then []
              else
                var claimed := ClaimedRecord(sha, r, c, token, false).rev;
                [ClaimedRevocation(claimed, ClaimFence(id, c.workerID, token, claimed.claimEpoch))]
  {
    hide Play, Next;
    PlaySteps(r, ClaimLabel(sha, c, token), PoisonLabel(sha, c, token, r.rev.claimEpoch + 1));
  }

  lemma SweptByClaim(sha: Hash, s: Store, c: Call, chosen: seq<SortKey>, i: nat)
    requires c.ClaimRevocations? && Sweep(c) && i < |chosen| && Named(s, chosen) && Supplied(c, i + 1)
    requires chosen[i].id in s.records && c.tokens(i).Some?
    ensures SweptRecord(sha, s, c, chosen, i)
         == ClaimedRecord(sha, s.records[chosen[i].id], c, c.tokens(i).value, c.poison(chosen[i].id))
  {
    hide Play, ClaimSteps, ClaimedRecord;
    ClaimStepsPlayed(sha, s.records[chosen[i].id], chosen[i].id, c, c.tokens(i).value);
  }

}
