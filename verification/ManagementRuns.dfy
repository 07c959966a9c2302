/**
 Which records of a run the control plane accepts. On a microsecond clock that never runs backwards it is exactly those
 whose last wait was not set by a retry with an odd delay. If readings come in any order, as they may where a call reads
 its clock before it takes the lock, the last reading and that of the last hand-over must also be in order.
 */
module ManagementRuns {
  import opened Text
  import opened Revocations
  import opened Lifecycle
  import opened LifecycleTraces
  import opened Management
  import opened RepositoryModel
  import opened RepositoryRuns
  import opened RepositorySafety

  ghost predicate WholeReadings(cs: seq<Call>) {
    forall c | c in cs :: c.now % Microsecond == 0 && LastReading(c) % Microsecond == 0
  }

  /** The record is absent, or its instants other than its wait are whole microseconds. */
  ghost predicate WholeIfPresent(s: Store, id: string) {
    id in s.records ==> WholeInstants(s.records[id])
  }

  ghost predicate OddIn(s: Store, id: string) {
    id in s.records && WaitsOddly(s.records[id])
  }

  lemma MovesReadClock(sha: Hash, s: Store, c: Call, id: string)
    requires Consistent(s) && Ticking(c) && id in s.records
    ensures Legal(s.records[id], Moves(sha, s, c, id))
    ensures forall l | l in Moves(sha, s, c, id) :: l.now == c.now || l.now == LastReading(c)
  {
    hide Moves, Legal, Punctual, Consistent, WellFormed, LastReading, Ticking;
    ClaimEpochBounded(s, id);
    MovesFit(sha, s, c, id);
  }

  lemma NewRecordDates(sha: Hash, c: Call)
    requires c.Prepare? && c.second.Some? && c.permitToken.Some?
    ensures var r := NewRecord(sha, c, c.second.value, c.permitToken.value);
            && (c.now % Microsecond == 0 ==> WholeInstants(r) && !WaitsOddly(r)) && (c.now > 0 ==> Dated(r))
            && r.rev.updatedAt == r.rev.frozen.createdAt && r.rev.manualRequiredAt == Zero
  {
  }

  lemma CallSetsWait(sha: Hash, s: Store, c: Call, id: string)
    requires Consistent(s) && Ticking(c) && c.now % Microsecond == 0 && LastReading(c) % Microsecond == 0
    requires WholeIfPresent(s, id)
    ensures WholeIfPresent(After(sha, s, c), id)
    ensures OddIn(After(sha, s, c), id) <==>
              EndsOddly(OddIn(s, id), if id in s.records then Moves(sha, s, c, id) else [])
  {
    hide Moves, After, Consistent, Ticking, PrepareOutcomeOf, NewRecord, WholeInstants, WaitsOddly, Play;
    if id in s.records {
      RecordAfter(sha, s, c, id);
      MovesReadClock(sha, s, c, id);
      LifeSetsWait(s.records[id], Moves(sha, s, c, id));
    } else {
      StoreAfter(sha, s, c);
      if id in After(sha, s, c).records {
        CreatedExactly(sha, s, c);
        NewRecordDates(sha, c);
      }
    }
  }

  lemma {:induction false} RunSetsWait(sha: Hash, s: Store, cs: seq<Call>, id: string)
    requires Consistent(s) && AllTicking(cs) && WholeReadings(cs) && WholeIfPresent(s, id)
    ensures WholeIfPresent(Run(sha, s, cs), id)
    ensures OddIn(Run(sha, s, cs), id) <==> EndsOddly(OddIn(s, id), TraceOf(sha, s, cs, id))
    decreases |cs|
  {
    hide Moves, After, Consistent, Ticking, WholeIfPresent, OddIn, EndsOddly;
    if |cs| == 0 {
      OddlyNothing(OddIn(s, id));
    } else {
      var c, a := cs[0], After(sha, s, cs[0]);
      assert c in cs && forall d | d in cs[1..] :: d in cs;
      CallSetsWait(sha, s, c, id);
      ConsistentAfter(sha, s, c);
      RunSetsWait(sha, a, cs[1..], id);
      EndsOddlySplit(OddIn(s, id), if id in s.records then Moves(sha, s, c, id) else [], TraceOf(sha, a, cs[1..], id));
    }
  }

  lemma OddlyNothing(odd: bool)
    ensures EndsOddly(odd, []) == odd
  {
  }

  /**
   Over every run on a microsecond clock that never runs backwards, whoever calls what and is refused or not: the
   control plane accepts a record exactly if its identifiers are in management format and the last of its requests,
   requeues and retries is not a retry with an odd delay.
   */
  lemma EveryReachableRecordExactly(sha: Hash, cs: seq<Call>, t: Time, id: string)
    requires t > 0 && Clocked(cs, t) && WholeReadings(cs) && id in Run(sha, EmptyStore, cs).records
    ensures var r := Run(sha, EmptyStore, cs).records[id];
            ValidManagementRecord(Project(r)) <==>
              ManagementFormat(r.rev.frozen) && !EndsOddly(false, TraceOf(sha, EmptyStore, cs, id))
  {
    hide Run, WellFormed, Chronological, WholeInstants, WaitsOddly, ManagementFormat, PrepareFormat, ValidManagementRecord,
         TraceOf, EndsOddly;
    TimelyRun(sha, EmptyStore, cs, t);
    ClockedTicks(cs, t);
    RunSetsWait(sha, EmptyStore, cs, id);
    ManageableExactly(Run(sha, EmptyStore, cs).records[id]);
  }

  // ---------------------------------------------------------------- readings in any order

  ghost predicate Positive(cs: seq<Call>) {
    forall c | c in cs :: c.now > 0 && LastReading(c) > 0
  }

  ghost predicate DatedIfPresent(s: Store, id: string) {
    id in s.records ==> Dated(s.records[id])
  }

  /** What a run leaves on a record follows from what was there and from its steps in between. */
  ghost predicate DatedBy(s: Store, n: Store, id: string, ls: seq<Label>)
    requires id in n.records
  {
    var r := n.records[id];
    && Dated(r)
    && (id in s.records ==>
          && r.rev.frozen == s.records[id].rev.frozen && r.rev.updatedAt == EndsAt(s.records[id].rev.updatedAt, ls)
          && r.rev.manualRequiredAt == HandedOverAt(s.records[id].rev.manualRequiredAt, ls))
    && (id !in s.records ==>
          r.rev.updatedAt == EndsAt(r.rev.frozen.createdAt, ls) && r.rev.manualRequiredAt == HandedOverAt(Zero, ls))
  }

  lemma CallDates(sha: Hash, s: Store, c: Call, id: string)
    requires Consistent(s) && c.now > 0 && LastReading(c) > 0 && DatedIfPresent(s, id) && id in After(sha, s, c).records
    ensures DatedBy(s, After(sha, s, c), id, if id in s.records then Moves(sha, s, c, id) else [])
  {
    hide Moves, After, Consistent, Dated, Play, Legal, LastReading, EndsAt, HandedOverAt;
    if id in s.records {
      RecordAfter(sha, s, c, id);
      MovesReadClock(sha, s, c, id);
      LifeDates(s.records[id], Moves(sha, s, c, id));
    } else {
      CreationDates(sha, s, c, id);
    }
  }

  lemma CreationDates(sha: Hash, s: Store, c: Call, id: string)
    requires c.now > 0 && id !in s.records && id in After(sha, s, c).records
    ensures DatedBy(s, After(sha, s, c), id, [])
  {
    hide After, PrepareOutcomeOf, NewRecord, Dated, WholeInstants, WaitsOddly;
    StoreAfter(sha, s, c);
    CreatedExactly(sha, s, c);
    NewRecordDates(sha, c);
  }

  lemma {:induction false} RunDates(sha: Hash, s: Store, cs: seq<Call>, id: string)
    requires Consistent(s) && Positive(cs) && DatedIfPresent(s, id) && id in Run(sha, s, cs).records
    ensures DatedBy(s, Run(sha, s, cs), id, TraceOf(sha, s, cs, id))
    decreases |cs|
  {
    hide Moves, After, Consistent, LastReading, DatedBy, DatedIfPresent;
    if |cs| == 0 {
      DatedNothing(s, id);
    } else {
      var c, a := cs[0], After(sha, s, cs[0]);
      assert c in cs && forall d | d in cs[1..] :: d in cs;
      assert Ticking(c);
      ConsistentAfter(sha, s, c);
      if id in s.records { RecordAfter(sha, s, c, id); }
      if id in a.records { CallDates(sha, s, c, id); }
      DatesGoOn(s, a, id, if id in s.records then Moves(sha, s, c, id) else []);
      RunDates(sha, a, cs[1..], id);
      DatesChain(s, a, Run(sha, s, cs), id, if id in s.records then Moves(sha, s, c, id) else [], TraceOf(sha, a, cs[1..], id));
    }
  }

  lemma DatedNothing(s: Store, id: string)
    requires id in s.records && DatedIfPresent(s, id)
    ensures DatedBy(s, s, id, [])
  {
    hide Dated;
  }

  lemma DatesGoOn(s: Store, a: Store, id: string, ls: seq<Label>)
    requires id in a.records ==> DatedBy(s, a, id, ls)
    ensures DatedIfPresent(a, id)
  {
    hide Dated;
  }

  lemma DatesChain(s: Store, a: Store, n: Store, id: string, xs: seq<Label>, ys: seq<Label>)
    requires id in n.records && (if id in a.records then DatedBy(s, a, id, xs) else id !in s.records && xs == [])
    requires DatedBy(a, n, id, ys)
    ensures DatedBy(s, n, id, xs + ys)
  {
    hide Dated, EndsAt, HandedOverAt;
    if id !in a.records {
      assert xs + ys == ys;
    } else if id in s.records {
      HandedOverSplit(s.records[id].rev.updatedAt, xs, ys);
      HandedOverSplit(s.records[id].rev.manualRequiredAt, xs, ys);
    } else {
      HandedOverSplit(a.records[id].rev.frozen.createdAt, xs, ys);
      HandedOverSplit(Zero, xs, ys);
    }
  }

  /**
   Over every run on a microsecond clock, in whatever order the calls have read it: the control plane accepts a record
   exactly if its identifiers are in management format, the last of its requests, requeues and retries is not a retry with
   an odd delay, its last reading is not behind its creation, and its last hand-over lies between the two.
   */
  lemma EveryReachableRecordInAnyOrder(sha: Hash, cs: seq<Call>, id: string)
    requires Positive(cs) && WholeReadings(cs) && id in Run(sha, EmptyStore, cs).records
    ensures var r, life := Run(sha, EmptyStore, cs).records[id], TraceOf(sha, EmptyStore, cs, id);
            ValidManagementRecord(Project(r)) <==>
              ManagementFormat(r.rev.frozen) && !EndsOddly(false, life) && ReadInOrder(r.rev.frozen.createdAt, life)
  {
    hide Run, WellFormed, WholeInstants, WaitsOddly, ManagementFormat, PrepareFormat, ValidManagementRecord, TraceOf, EndsOddly,
         EndsAt, HandedOverAt, LastReading;
    assert Consistent(EmptyStore) && AllTicking(cs);
    ConsistentRun(sha, EmptyStore, cs);
    RunSetsWait(sha, EmptyStore, cs, id);
    RunDates(sha, EmptyStore, cs, id);
    ManageableWhenDated(Run(sha, EmptyStore, cs).records[id]);
  }
}
