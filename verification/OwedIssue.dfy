/** A record, a handle and a script, all concrete, under which `Issue` owes a credential. */
module OwedIssues {
  import opened Options
  import opened Text
  import opened Revocations
  import opened Lifecycle
  import opened LifecycleTraces
  import opened Management
  import opened RepositoryModel
  import opened RepositoryRuns
  import RepositorySafety
  import opened BrokerChecks
  import opened BrokerAgreement
  import opened IssuanceSafety
  import opened DurableScripts
  import opened OddRetryRuns

  const Request := DurableRequest(Fence, Selection("t", Id, Id, false, "y", "c", "p", "r"), 10 * Minute, Start + 10 * Minute)
  const Issuer := Profile("i", "v", 10 * Minute)

  function Handle(sha: Hash): PreparedCredential {
    PreparedCredential(Request, Issuer, R0(sha).rev, Permit(Id, "q"), Id, Start + 10 * Minute)
  }

  /** Every outside call succeeds at once, and nobody else calls. */
  function Plain(sha: Hash): Script {
    Script((k: nat) => false, true, true, OpenGate(sha), Start, Child("m", Start + Minute), true, true, true,
           true, OpenGate(sha), Protector(Some(Reference), Some(true)), Start, Start, true,
           DynamicSecret("z", Start + Minute), true, Start, true, OpenGate(sha), Start, Start, true, Start, (k: nat) => [])
  }

  lemma RecordPristine(sha: Hash)
    ensures Pristine(sha, R0(sha), Handle(sha))
  {
    hide Newborn, Chronological, PrepareFormat, PrepareRefusal, Bound, HeldBy, Shown, Intact, NewRecord;
    PrepareAdmits();
    NewRecordNewborn(sha, Preparing);
    NewRecordFormat(sha, Preparing);
    RecordFrozen(sha);
    HandleIntact(sha);
  }

  lemma RecordFrozen(sha: Hash)
    ensures Bound(R0(sha).rev.frozen, Id, Request, Issuer, Start + 10 * Minute)
    ensures R0(sha).permitSHA256 == sha("q") && Shown(sha, Fence) == HeldBy(R0(sha))
  {
    hide ValidIdentifier, ValidOpaqueText;
    TargetIsOpaque();
  }

  lemma HandleIntact(sha: Hash)
    ensures Intact(Handle(sha), Id)
  {
    hide ValidIdentifier, ValidOpaqueText;
    Formats();
    TargetIsOpaque();
  }

  lemma TargetIsOpaque()
    ensures ValidOpaqueText("k", 1024) && ValidIdentifier("t", 256) && ValidIdentifier("i", 256)
  {
    OneLetter('t');
    OneLetter('i');
    assert AlphaNumeric('k');
    IdentifierIsOpaqueText("k", 512, 1024);
  }

  lemma GatesOpen(sha: Hash)
    ensures FenceStays(sha, R0(sha), Handle(sha), Plain(sha))
  {
    Formats();
    hide ValidUUID, ValidIdentifier, ValidOpaqueText, ValidActionFence;
  }

  lemma PlainIsHonest(sha: Hash)
    ensures OneClock(R0(sha), Plain(sha)) && Undisturbed(R0(sha), Plain(sha), Id)
  {
  }

  lemma IssuerWorks(sha: Hash)
    ensures IssuerHonest(R0(sha), Plain(sha))
  {
    var r, x := R0(sha), Plain(sha);
    assert Grant(r, x).databaseAuthorizedAt == Start && Grant(r, x).credentialExpiresAt == Start + 10 * Minute by {
      hide ChildTTLAt;
    }
    hide Grant;
  }

  /** After a Prepare on an empty repository, with surroundings that work, a credential is owed: the promise of `Issue` is not an empty one. */
  lemma CredentialIsOwed(sha: Hash)
    ensures Id in After(sha, EmptyStore, Preparing).records && After(sha, EmptyStore, Preparing).records[Id] == R0(sha)
    ensures Owed(sha, R0(sha), Handle(sha), Plain(sha))
    ensures Fair(sha, HeldBy(R0(sha)), Plain(sha), Id) && Quiescent(After(sha, EmptyStore, Preparing), Id, HeldBy(R0(sha)))
  {
    hide After, Only, Pristine, OneClock, IssuerHonest, Undisturbed, FenceStays, Consistent;
    PrepareLeaves(sha);
    OnlyUpdate(R0(sha), R0(sha));
    RecordPristine(sha);
    GatesOpen(sha);
    PlainIsHonest(sha);
    IssuerWorks(sha);
    RepositorySafety.EmptyIsConsistent(Id);
    ConsistentAfter(sha, EmptyStore, Preparing);
  }
}
