/**
 Cleanup proofs: what the broker signs when an attempt is closed, and what it accepts later. The
 signing authority is abstract; it is correct if it accepts what it signed.
 */
module CleanupProofs {
  import opened Options
  import opened Text
  import opened Framing

  const ProofDomain := "asset-source-cleanup-proof.v1"

  datatype Coordinates = Coordinates(tenantID: string, workspaceID: string, runID: string)

  datatype CleanupAttempt = CleanupAttempt(runID: string, attemptID: string, epoch: int)

  datatype Request = Request(coordinates: Coordinates, attempt: CleanupAttempt)

  datatype CleanupStatus = REVOKED | UNCERTAIN

  datatype Proof = Proof(coordinates: Coordinates, attempt: CleanupAttempt, status: CleanupStatus, digestSHA256: string, authentication: string)

  datatype Authority = Authority(sign: string -> Option<string>, verify: (string, string) -> bool)

  ghost predicate CorrectAuthority(w: Authority) {
    forall digest :: w.sign(digest).Some? ==> w.verify(digest, w.sign(digest).value)
  }

  predicate ValidRequest(r: Request) {
    && ValidUUID(r.coordinates.tenantID) && ValidUUID(r.coordinates.workspaceID) && ValidUUID(r.coordinates.runID)
    && ValidUUID(r.attempt.runID) && ValidUUID(r.attempt.attemptID) && r.attempt.epoch > 0
    && r.attempt.runID == r.coordinates.runID
  }

  predicate ValidProof(p: Proof) {
    ValidRequest(Request(p.coordinates, p.attempt)) && ValidSHA256(p.digestSHA256) && 32 <= |p.authentication| <= 4096
  }

  function StatusText(status: CleanupStatus): string {
    match status case REVOKED => "REVOKED" case UNCERTAIN => "UNCERTAIN"
  }

  function ProofFields(r: Request, status: CleanupStatus): seq<string> {
    [ProofDomain, r.coordinates.tenantID, r.coordinates.workspaceID, r.coordinates.runID, r.attempt.attemptID,
     Decimal(r.attempt.epoch), StatusText(status)]
  }

  function ProofDigest(sha: Hash, r: Request, status: CleanupStatus): string {
    sha(EncodeAll(Tuple(ProofFields(r, status))))
  }

  /** `signProof`: no proof if the authority fails or its signature has an impossible length. */
  function SignProof(sha: Hash, w: Authority, r: Request, status: CleanupStatus): Option<Proof> {
    var digest := ProofDigest(sha, r, status);
    var signature := w.sign(digest);
    if signature.None? then None
    else
      var proof := Proof(r.coordinates, r.attempt, status, digest, signature.value);
      if ValidProof(proof) then Some(proof) else None
  }

  /** `VerifyCleanupProof`, while the broker is open. */
  predicate Verifies(sha: Hash, w: Authority, p: Proof) {
    && ValidProof(p)
    && ProofDigest(sha, Request(p.coordinates, p.attempt), p.status) == p.digestSHA256
    && w.verify(ProofDigest(sha, Request(p.coordinates, p.attempt), p.status), p.authentication)
  }

  /** Every proof the broker issues is one it accepts. */
  lemma IssuedProofVerifies(sha: Hash, w: Authority, r: Request, status: CleanupStatus)
    requires CorrectAuthority(w) && SignProof(sha, w, r, status).Some?
    ensures Verifies(sha, w, SignProof(sha, w, r, status).value)
  {
    hide ProofDigest, ValidProof;
    assert w.sign(ProofDigest(sha, r, status)).Some?;
    assert Request(r.coordinates, r.attempt) == r;
  }

  /** What is signed determines every coordinate and the status, so no proof stands for another attempt or verdict. */
  lemma ProofBytesInjective(r: Request, a: CleanupStatus, t: Request, b: CleanupStatus)
    requires ValidRequest(r) && ValidRequest(t) && r.attempt.epoch < 0x8000_0000_0000_0000 && t.attempt.epoch < 0x8000_0000_0000_0000
    requires EncodeAll(Tuple(ProofFields(r, a))) == EncodeAll(Tuple(ProofFields(t, b)))
    ensures r == t && a == b
  {
    var l, m := ProofFields(r, a), ProofFields(t, b);
    DecimalIsShort(r.attempt.epoch);
    DecimalIsShort(t.attempt.epoch);
    TupleInjective(l, m);
    assert l[1] == m[1] && l[2] == m[2] && l[3] == m[3] && l[4] == m[4] && l[5] == m[5] && l[6] == m[6];
    DecimalInjective(r.attempt.epoch, t.attempt.epoch);
    assert |StatusText(a)| == |StatusText(b)|;
  }
}
